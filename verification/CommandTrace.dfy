/** The command protocol every retrying component follows: stages in order, each
    sent at most three times with confirmations counting from zero, and a resend
    no earlier than the acknowledgement timeout unless the write itself failed. */
module CommandTrace {
  import opened FlightTypes

  const ACK_TIMEOUT: Time := 2 * SECOND
  const MAX_ATTEMPTS: nat := 3

  datatype Sent = Sent(stage: nat, confirmation: nat, at: Time, delivered: bool)

  predicate Follows(a: Sent, b: Sent) {
    && b.at >= a.at
    && if b.stage == a.stage then
         b.confirmation == a.confirmation + 1 && (a.delivered ==> b.at >= a.at + 2_000_000_000)
       else b.stage == a.stage + 1 && b.confirmation == 0
  }

  ghost predicate Disciplined(t: seq<Sent>) {
    && (|t| > 0 ==> t[0].stage == 0 && t[0].confirmation == 0)
    && (forall k :: 0 <= k < |t| ==> t[k].confirmation < 3)
    && (forall i, j :: 0 <= i < j < |t| && j == i + 1 ==> Follows(t[i], t[j]))
  }

  /** One stage sent n times. */
  function Block(stage: nat, n: nat): seq<(nat, nat)> {
    seq(n, i => (stage, i))
  }

  /** counts[0] sends of stage 0, then counts[1] sends of stage 1, and so on. */
  function Blocks(counts: seq<nat>): seq<(nat, nat)> {
    if counts == [] then []
    else Blocks(counts[..|counts| - 1]) + Block(|counts| - 1, counts[|counts| - 1])
  }

  function Shape(t: seq<Sent>): seq<(nat, nat)> {
    seq(|t|, i requires 0 <= i < |t| => (t[i].stage, t[i].confirmation))
  }

  /** counts says how often each stage reached so far was sent. */
  ghost predicate Spells(counts: seq<nat>, t: seq<Sent>) {
    && |counts| == (if t == [] then 0 else t[|t| - 1].stage + 1)
    && (forall k :: 0 <= k < |counts| ==> 1 <= counts[k] <= 3)
    && (t != [] ==> counts[|counts| - 1] == t[|t| - 1].confirmation + 1)
    && Blocks(counts) == Shape(t)
  }

  lemma BlocksGrow(counts: seq<nat>)
    requires counts != []
    ensures var last := |counts| - 1;
            Blocks(counts[last := counts[last] + 1]) == Blocks(counts) + [(last, counts[last])]
    ensures Blocks(counts + [1]) == Blocks(counts) + [(|counts|, 0)]
  {
    var last := |counts| - 1;
    var n := counts[last];
    assert counts[last := n + 1][..last] == counts[..last];
    assert Block(last, n + 1) == Block(last, n) + [(last, n)];
    assert (counts + [1])[..last + 1] == counts;
    assert Block(last + 1, 1) == [(last + 1, 0)];
  }

  /** The counts once one more command has followed. */
  function Grown(counts: seq<nat>, last: Sent): seq<nat>
    requires counts != []
  {
    if last.confirmation == 0 then counts + [1] else counts[|counts| - 1 := counts[|counts| - 1] + 1]
  }

  lemma SpellsGrow(counts: seq<nat>, front: seq<Sent>, last: Sent)
    requires front != [] && Spells(counts, front) && Follows(front[|front| - 1], last)
    requires last.confirmation < MAX_ATTEMPTS
    ensures Spells(Grown(counts, last), front + [last])
  {
    assert Shape(front + [last]) == Shape(front) + [(last.stage, last.confirmation)];
    BlocksGrow(counts);
  }

  /** A disciplined trace spells a word of A{1..3} B{1..3} C{1..3} ..., cut after any command. */
  lemma {:induction false} DisciplinedIsBlocks(t: seq<Sent>)
    requires Disciplined(t)
    ensures exists counts: seq<nat> :: Spells(counts, t)
  {
    if t == [] {
      assert Spells([], t);
    } else {
      var last, front := t[|t| - 1], t[..|t| - 1];
      assert Disciplined(front);
      DisciplinedIsBlocks(front);
      var c: seq<nat> :| Spells(c, front);
      assert t == front + [last];
      if front == [] {
        assert Block(0, 1) == [(0, 0)];
        assert Spells([1], t);
      } else {
        assert Follows(t[|t| - 2], t[|t| - 1]);
        SpellsGrow(c, front, last);
      }
    }
  }

  lemma {:induction false} BlocksLength(counts: seq<nat>)
    requires forall k :: 0 <= k < |counts| ==> counts[k] <= MAX_ATTEMPTS
    ensures |Blocks(counts)| <= MAX_ATTEMPTS * |counts|
  {
    if counts != [] {
      BlocksLength(counts[..|counts| - 1]);
    }
  }

  /** At most three commands per stage reached. */
  lemma {:induction false} DisciplinedLength(t: seq<Sent>)
    requires Disciplined(t) && t != []
    ensures |t| <= MAX_ATTEMPTS * (t[|t| - 1].stage + 1)
  {
    DisciplinedIsBlocks(t);
    var c: seq<nat> :| Spells(c, t);
    BlocksLength(c);
    assert |Shape(t)| == |t|;
  }

  /** Extending a disciplined trace by a command that continues it. */
  lemma DisciplinedExtend(t: seq<Sent>, c: Sent)
    requires Disciplined(t) && c.confirmation < MAX_ATTEMPTS
    requires if t == [] then c.stage == 0 && c.confirmation == 0 else Follows(t[|t| - 1], c)
    ensures Disciplined(t + [c])
  {
  }
}
