/** When the order in which warnings are listed depends on how often somebody looked. */
module WarningOrder {
  import opened FlightTypes
  import opened VehicleStates

  predicate Speaks(e: Event, text: string) { e.StatusText? && e.text == text && Noted(e.severity, text) }

  /** x was reported before y was reported for the first time. */
  predicate FirstBefore(es: seq<Event>, x: string, y: string) {
    es != [] &&
    var (front, e) := (es[..|es| - 1], es[|es| - 1]);
    FirstBefore(front, x, y) || (Speaks(e, y) && LastSeen(front, y).None? && LastSeen(front, x).Some?)
  }

  /** x fell silent for more than 30 s, y was reported later than x meanwhile, and
      then x was reported again. */
  predicate Overtaken(es: seq<Event>, x: string, y: string) {
    es != [] &&
    var (front, e) := (es[..|es| - 1], es[|es| - 1]);
    Overtaken(front, x, y) ||
    (Speaks(e, x) && LastSeen(front, x).Some? && e.at - LastSeen(front, x).value > 30_000_000_000 &&
     LastSeen(front, y).Some? && LastSeen(front, y).value > LastSeen(front, x).value)
  }

  predicate Current(es: seq<Event>, text: string, now: Time) {
    LastSeen(es, text).Some? && now - LastSeen(es, text).value <= 30_000_000_000
  }

  /** No text that is still current was overtaken by a current one that came after it. */
  ghost predicate Settled(es: seq<Event>, now: Time) {
    forall x, y :: Current(es, x, now) && Current(es, y, now) && FirstBefore(es, x, y) ==> !Overtaken(es, x, y)
  }

  ghost predicate Precedes(ws: seq<Warning>, x: string, y: string) {
    exists i, j :: 0 <= i < j < |ws| && ws[i].text == x && ws[j].text == y
  }

  predicate Lists(ws: seq<Warning>, text: string) { exists k :: 0 <= k < |ws| && ws[k].text == text }

  function Shown(es: seq<Event>, now: Time): seq<Warning> { Prune(Run(INITIAL, es).warnings, now) }

  // --- Facts about the two relations ---

  lemma {:induction false} FirstBeforeIsTotal(es: seq<Event>, x: string, y: string)
    ensures FirstBefore(es, x, y) || FirstBefore(es, y, x) ==> LastSeen(es, x).Some? && LastSeen(es, y).Some?
    ensures x != y && LastSeen(es, x).Some? && LastSeen(es, y).Some? ==>
            (FirstBefore(es, x, y) <==> !FirstBefore(es, y, x))
    ensures !FirstBefore(es, x, x)
  {
    if es != [] {
      FirstBeforeIsTotal(es[..|es| - 1], x, y);
    }
  }

  lemma {:induction false} RelationsSnoc(es: seq<Event>, e: Event, x: string, y: string)
    ensures FirstBefore(es + [e], x, y) <==>
            FirstBefore(es, x, y) || (Speaks(e, y) && LastSeen(es, y).None? && LastSeen(es, x).Some?)
    ensures Overtaken(es + [e], x, y) <==>
            || Overtaken(es, x, y)
            || (Speaks(e, x) && LastSeen(es, x).Some? && e.at - LastSeen(es, x).value > WARNING_TIMEOUT &&
                LastSeen(es, y).Some? && LastSeen(es, y).value > LastSeen(es, x).value)
  {
    assert (es + [e])[..|es|] == es;
  }

  /** Looks do not matter to them. */
  lemma {:induction false} LooksDoNotMatter(es: seq<Event>, x: string, y: string)
    ensures FirstBefore(es, x, y) == FirstBefore(Reports(es), x, y)
    ensures Overtaken(es, x, y) == Overtaken(Reports(es), x, y)
  {
    if es != [] {
      var (front, e) := (es[..|es| - 1], es[|es| - 1]);
      LooksDoNotMatter(front, x, y);
      LooksOnlyPrune(front, x);
      LooksOnlyPrune(front, y);
      if e.Look? {
        assert Reports(es) == Reports(front);
      } else {
        RelationsSnoc(Reports(front), e, x, y);
      }
    }
  }

  // --- Every schedule: a list only departs from the order of first reports where one overtook another ---

  ghost predicate Arranged(ws: seq<Warning>, es: seq<Event>) {
    && (forall x, y :: Precedes(ws, x, y) ==> FirstBefore(es, x, y) || Overtaken(es, y, x))
    && (forall w, text :: w in ws && LastSeen(es, text).Some? && !Lists(ws, text) ==>
          LastSeen(es, text).value < w.lastSeen)
  }

  lemma MemberIsListed(ws: seq<Warning>, w: Warning)
    ensures w in ws ==> Lists(ws, w.text)
  {
    if w in ws {
      var k :| 0 <= k < |ws| && ws[k] == w;
      assert ws[k].text == w.text;
    }
  }

  lemma {:induction false} ListedIsHeld(ws: seq<Warning>, es: seq<Event>, now: Time, text: string)
    requires WarningsInv(ws, es, now)
    ensures Lists(ws, text) ==> LastSeen(es, text).Some? && Warning(text, LastSeen(es, text).value) in ws
    ensures LastSeen(es, text).Some? && !Lists(ws, text) ==> now - LastSeen(es, text).value > WARNING_TIMEOUT
  {
    if Lists(ws, text) {
      var k :| 0 <= k < |ws| && ws[k].text == text;
      assert ws[k] in ws;
    }
    if LastSeen(es, text).Some? {
      MemberIsListed(ws, Warning(text, LastSeen(es, text).value));
    }
  }

  lemma TouchLists(ws: seq<Warning>, t: string, now: Time, text: string)
    ensures Lists(Touch(ws, t, now), text) <==> text == t || Lists(ws, text)
  {
    var (k, r) := (Find(ws, t), Touch(ws, t, now));
    assert r[k].text == t;
    if Lists(ws, text) {
      var i :| 0 <= i < |ws| && ws[i].text == text;
      assert r[i].text == text;
    }
    if Lists(r, text) && text != t {
      var i :| 0 <= i < |r| && r[i].text == text;
      assert i < |ws| && ws[i].text == text;
    }
  }

  /** Touching keeps the order there is and puts a new text last. */
  lemma TouchPrecedes(ws: seq<Warning>, t: string, now: Time, x: string, y: string)
    ensures Precedes(Touch(ws, t, now), x, y) <==> Precedes(ws, x, y) || (y == t && !Lists(ws, t) && Lists(ws, x))
  {
    var (k, r) := (Find(ws, t), Touch(ws, t, now));
    assert forall i :: 0 <= i < |ws| ==> r[i].text == ws[i].text;
    if k < |ws| {
      assert Lists(ws, t);
      assert |r| == |ws|;
    } else {
      assert !Lists(ws, t) && r[|ws|].text == t;
      if Precedes(r, x, y) {
        var i, j :| 0 <= i < j < |r| && r[i].text == x && r[j].text == y;
        assert j < |ws| ==> Precedes(ws, x, y);
        assert ws[i].text == x;
      }
      if Lists(ws, x) && y == t {
        var i :| 0 <= i < |ws| && ws[i].text == x;
        assert r[i].text == x;
      }
    }
    if Precedes(ws, x, y) {
      var i, j :| 0 <= i < j < |ws| && ws[i].text == x && ws[j].text == y;
      assert r[i].text == x && r[j].text == y;
    }
  }

  lemma TouchKeepsArranged(ws: seq<Warning>, es: seq<Event>, e: Event)
    requires WarningsInv(ws, es, e.at) && Arranged(ws, es) && e.StatusText? && Noted(e.severity, e.text)
    ensures Arranged(Touch(ws, e.text, e.at), es + [e])
  {
    var (t, r, es') := (e.text, Touch(ws, e.text, e.at), es + [e]);
    forall x, y | Precedes(r, x, y) ensures FirstBefore(es', x, y) || Overtaken(es', y, x) {
      TouchPrecedes(ws, t, e.at, x, y);
      RelationsSnoc(es, e, x, y);
      RelationsSnoc(es, e, y, x);
      if !Precedes(ws, x, y) {
        NewcomerIsLast(ws, es, e, x);
      }
    }
    TouchMembers(ws, t, e.at);
    forall w, text | w in r && LastSeen(es', text).Some? && !Lists(r, text)
      ensures LastSeen(es', text).value < w.lastSeen
    {
      TouchLists(ws, t, e.at, text);
      SeenSnoc(es, e, text);
      ListedIsHeld(ws, es, e.at, text);
    }
  }

  lemma {:induction false} NewcomerIsLast(ws: seq<Warning>, es: seq<Event>, e: Event, x: string)
    requires WarningsInv(ws, es, e.at) && Arranged(ws, es) && e.StatusText? && Noted(e.severity, e.text)
    requires !Lists(ws, e.text) && Lists(ws, x)
    ensures FirstBefore(es + [e], x, e.text) || Overtaken(es + [e], e.text, x)
  {
    RelationsSnoc(es, e, x, e.text);
    RelationsSnoc(es, e, e.text, x);
    ListedIsHeld(ws, es, e.at, x);
    ListedIsHeld(ws, es, e.at, e.text);
  }

  lemma HeadPrecedes(w: Warning, rest: seq<Warning>, x: string, y: string)
    ensures Precedes([w] + rest, x, y) <==> Precedes(rest, x, y) || (w.text == x && Lists(rest, y))
  {
    var ws := [w] + rest;
    if Precedes(ws, x, y) {
      var i, j :| 0 <= i < j < |ws| && ws[i].text == x && ws[j].text == y;
      assert rest[j - 1].text == y;
      assert i > 0 ==> rest[i - 1].text == x;
    }
    if Precedes(rest, x, y) {
      var i, j :| 0 <= i < j < |rest| && rest[i].text == x && rest[j].text == y;
      assert ws[i + 1].text == x && ws[j + 1].text == y;
    }
    if w.text == x && Lists(rest, y) {
      var j :| 0 <= j < |rest| && rest[j].text == y;
      assert ws[0].text == x && ws[j + 1].text == y;
    }
  }

  lemma {:induction false} PruneLists(ws: seq<Warning>, now: Time, text: string)
    requires Lists(Prune(ws, now), text)
    ensures Lists(ws, text)
  {
    var k :| 0 <= k < |Prune(ws, now)| && Prune(ws, now)[k].text == text;
    PruneSubset(ws, now, Prune(ws, now)[k]);
    MemberIsListed(ws, Prune(ws, now)[k]);
  }

  lemma {:induction false} PrunePrecedes(ws: seq<Warning>, now: Time, x: string, y: string)
    requires Precedes(Prune(ws, now), x, y)
    ensures Precedes(ws, x, y)
  {
    if ws != [] {
      var (rest, r) := (ws[1..], Prune(ws[1..], now));
      assert ws == [ws[0]] + rest;
      HeadPrecedes(ws[0], rest, x, y);
      HeadPrecedes(ws[0], r, x, y);
      assert [] + r == r;
      if Precedes(r, x, y) {
        PrunePrecedes(rest, now, x, y);
      } else {
        PruneLists(rest, now, y);
      }
    }
  }

  lemma {:induction false} PruneSubset(ws: seq<Warning>, now: Time, w: Warning)
    ensures w in Prune(ws, now) <==> w in ws && now - w.lastSeen <= WARNING_TIMEOUT
  {
    if ws != [] {
      PruneSubset(ws[1..], now, w);
      assert ws == [ws[0]] + ws[1..];
    }
  }

  lemma PruneKeepsArranged(ws: seq<Warning>, es: seq<Event>, now: Time)
    requires WarningsInv(ws, es, now) && Arranged(ws, es)
    ensures Arranged(Prune(ws, now), es)
  {
    var r := Prune(ws, now);
    forall x, y | Precedes(r, x, y) ensures FirstBefore(es, x, y) || Overtaken(es, y, x) {
      PrunePrecedes(ws, now, x, y);
    }
    forall w, text | w in r && LastSeen(es, text).Some? && !Lists(r, text)
      ensures LastSeen(es, text).value < w.lastSeen
    {
      PruneSubset(ws, now, w);
      ListedIsHeld(ws, es, now, text);
      if Lists(ws, text) {
        var v := Warning(text, LastSeen(es, text).value);
        PruneSubset(ws, now, v);
        MemberIsListed(r, v);
      }
    }
  }

  lemma SameReportsArranged(ws: seq<Warning>, es: seq<Event>, e: Event)
    requires Arranged(ws, es) && !(e.StatusText? && Noted(e.severity, e.text))
    ensures Arranged(ws, es + [e])
  {
    forall x, y
      ensures FirstBefore(es + [e], x, y) == FirstBefore(es, x, y) && Overtaken(es + [e], x, y) == Overtaken(es, x, y)
    {
      RelationsSnoc(es, e, x, y);
    }
    forall text ensures LastSeen(es + [e], text) == LastSeen(es, text) {
      SeenSnoc(es, e, text);
    }
  }

  lemma {:induction false} ArrangedAlways(es: seq<Event>)
    requires Monotone(es)
    ensures Arranged(Run(INITIAL, es).warnings, es)
  {
    if es != [] {
      var (front, e) := (es[..|es| - 1], es[|es| - 1]);
      var ws := Run(INITIAL, front).warnings;
      assert es == front + [e];
      ArrangedAlways(front);
      WarningsAlways(front, e.at);
      if e.StatusText? && Noted(e.severity, e.text) {
        TouchKeepsArranged(ws, front, e);
      } else {
        SameReportsArranged(ws, front, e);
        if e.Look? {
          UnnotedKeeps(ws, front, e);
          PruneKeepsArranged(ws, es, e.at);
        }
      }
      assert Arranged(StepWarnings(ws, e), es);
    }
  }

  // --- Settled reports: every schedule lists the same ---

  lemma ListedIsCurrent(es: seq<Event>, now: Time, text: string)
    requires Monotone(es) && (es != [] ==> es[|es| - 1].at <= now)
    ensures Lists(Shown(es, now), text) <==> Current(es, text, now)
  {
    var ws := Shown(es, now);
    WarningsAgree(es, now);
    if Lists(ws, text) {
      var k :| 0 <= k < |ws| && ws[k].text == text;
      assert Holds(ws, text, ws[k].lastSeen);
    }
    if Current(es, text, now) {
      assert Holds(ws, text, LastSeen(es, text).value);
      MemberIsListed(ws, Warning(text, LastSeen(es, text).value));
    }
  }

  lemma PrecedesIsListed(ws: seq<Warning>, x: string, y: string)
    requires Precedes(ws, x, y)
    ensures Lists(ws, x) && Lists(ws, y)
  {
  }

  lemma {:induction false} ShownInOrder(es: seq<Event>, now: Time, x: string, y: string)
    requires Monotone(es) && (es != [] ==> es[|es| - 1].at <= now)
    requires Settled(es, now) && Precedes(Shown(es, now), x, y)
    ensures FirstBefore(es, x, y)
  {
    var ws := Run(INITIAL, es).warnings;
    ArrangedAlways(es);
    PrunePrecedes(ws, now, x, y);
    PrecedesIsListed(Shown(es, now), x, y);
    ListedIsCurrent(es, now, x);
    ListedIsCurrent(es, now, y);
    WarningsAgree(es, now);
    assert x != y;
    FirstBeforeIsTotal(es, x, y);
  }

  /** Two lists of the same texts, each without repetition and in the order of the
      same total relation, are the same. */
  lemma {:induction false} SameOrder(a: seq<Warning>, b: seq<Warning>, es: seq<Event>)
    requires Distinct(a) && Distinct(b) && forall text :: Lists(a, text) <==> Lists(b, text)
    requires forall x, y :: Precedes(a, x, y) || Precedes(b, x, y) ==> FirstBefore(es, x, y)
    ensures Texts(a) == Texts(b)
  {
    if a == [] {
      if b != [] {
        assert Lists(b, b[0].text);
      }
    } else {
      assert Lists(a, a[0].text);
      assert Lists(b, a[0].text);
      assert Lists(b, b[0].text);
      SameHead(a, b, es);
      TailLists(a);
      TailLists(b);
      forall x, y | Precedes(a[1..], x, y) || Precedes(b[1..], x, y) ensures FirstBefore(es, x, y) {
        if Precedes(a[1..], x, y) { SuffixPrecedes(a, x, y); } else { SuffixPrecedes(b, x, y); }
      }
      SameOrder(a[1..], b[1..], es);
      assert Texts(a) == [a[0].text] + Texts(a[1..]) && Texts(b) == [b[0].text] + Texts(b[1..]);
    }
  }

  lemma SuffixPrecedes(ws: seq<Warning>, x: string, y: string)
    requires ws != [] && Precedes(ws[1..], x, y)
    ensures Precedes(ws, x, y)
  {
    assert ws == [ws[0]] + ws[1..];
    HeadPrecedes(ws[0], ws[1..], x, y);
  }

  lemma TailLists(ws: seq<Warning>)
    requires ws != [] && Distinct(ws)
    ensures Distinct(ws[1..]) && forall text :: Lists(ws[1..], text) <==> Lists(ws, text) && text != ws[0].text
  {
    forall text ensures Lists(ws[1..], text) <==> Lists(ws, text) && text != ws[0].text {
      if Lists(ws[1..], text) {
        var k :| 0 <= k < |ws[1..]| && ws[1..][k].text == text;
        assert ws[k + 1].text == text;
      }
      if Lists(ws, text) && text != ws[0].text {
        var k :| 0 <= k < |ws| && ws[k].text == text;
        assert ws[1..][k - 1].text == text;
      }
    }
  }

  lemma SameHead(a: seq<Warning>, b: seq<Warning>, es: seq<Event>)
    requires a != [] && b != [] && Lists(a, b[0].text) && Lists(b, a[0].text)
    requires forall x, y :: Precedes(a, x, y) || Precedes(b, x, y) ==> FirstBefore(es, x, y)
    ensures a[0].text == b[0].text
  {
    if a[0].text != b[0].text {
      var i :| 0 <= i < |a| && a[i].text == b[0].text;
      var j :| 0 <= j < |b| && b[j].text == a[0].text;
      assert Precedes(a, a[0].text, b[0].text) && Precedes(b, b[0].text, a[0].text);
      FirstBeforeIsTotal(es, a[0].text, b[0].text);
    }
  }

  /** A history with these reports that could have led up to `now`. */
  ghost predicate ScheduleOf(es: seq<Event>, reports: seq<Event>, now: Time) {
    Monotone(es) && (es != [] ==> es[|es| - 1].at <= now) && Reports(es) == reports
  }

  lemma SettledTransfers(es: seq<Event>, now: Time)
    ensures Settled(es, now) <==> Settled(Reports(es), now)
  {
    forall x, y
      ensures FirstBefore(es, x, y) == FirstBefore(Reports(es), x, y)
      ensures Overtaken(es, x, y) == Overtaken(Reports(es), x, y)
    {
      LooksDoNotMatter(es, x, y);
    }
    forall text ensures LastSeen(es, text) == LastSeen(Reports(es), text) {
      LooksOnlyPrune(es, text);
    }
  }

  lemma SettledListsAgree(a: seq<Event>, b: seq<Event>, reports: seq<Event>, now: Time)
    requires ScheduleOf(a, reports, now) && ScheduleOf(b, reports, now) && Settled(reports, now)
    ensures Texts(Shown(a, now)) == Texts(Shown(b, now))
  {
    SettledTransfers(a, now);
    SettledTransfers(b, now);
    WarningsAgree(a, now);
    WarningsAgree(b, now);
    forall text ensures Lists(Shown(a, now), text) <==> Lists(Shown(b, now), text) {
      ListedIsCurrent(a, now, text);
      ListedIsCurrent(b, now, text);
      LooksOnlyPrune(a, text);
      LooksOnlyPrune(b, text);
    }
    forall x, y | Precedes(Shown(a, now), x, y) || Precedes(Shown(b, now), x, y) ensures FirstBefore(reports, x, y) {
      LooksDoNotMatter(a, x, y);
      LooksDoNotMatter(b, x, y);
      if Precedes(Shown(a, now), x, y) { ShownInOrder(a, now, x, y); } else { ShownInOrder(b, now, x, y); }
    }
    SameOrder(Shown(a, now), Shown(b, now), reports);
  }

  // --- Unsettled reports: a look at the right moment changes the list ---

  predicate LookFree(es: seq<Event>) { forall k :: 0 <= k < |es| ==> !es[k].Look? }

  lemma {:induction false} LookFreeIsReports(es: seq<Event>)
    requires LookFree(es)
    ensures Reports(es) == es
  {
    if es != [] {
      LookFreeIsReports(es[..|es| - 1]);
      assert es == es[..|es| - 1] + [es[|es| - 1]];
    }
  }

  /** Without looks every text stays where it was first reported. */
  lemma {:induction false} UnlookedOrder(es: seq<Event>, x: string, y: string)
    requires LookFree(es)
    ensures LastSeen(es, x).Some? ==> Lists(Run(INITIAL, es).warnings, x)
    ensures LastSeen(es, x).None? ==> !Lists(Run(INITIAL, es).warnings, x)
    ensures LastSeen(es, y).None? ==> !Lists(Run(INITIAL, es).warnings, y)
    ensures FirstBefore(es, x, y) ==> Precedes(Run(INITIAL, es).warnings, x, y)
  {
    if es != [] {
      var (front, e) := (es[..|es| - 1], es[|es| - 1]);
      var ws := Run(INITIAL, front).warnings;
      UnlookedOrder(front, x, y);
      if e.StatusText? && Noted(e.severity, e.text) {
        TouchLists(ws, e.text, e.at, x);
        TouchLists(ws, e.text, e.at, y);
        TouchPrecedes(ws, e.text, e.at, x, y);
      }
      assert Run(INITIAL, es).warnings == StepWarnings(ws, e);
    }
  }

  /** A look at a time, in its place among the reports. */
  function LookAt(es: seq<Event>, at: Time): seq<Event> {
    if es == [] || es[|es| - 1].at <= at then es + [Look(at)]
    else LookAt(es[..|es| - 1], at) + [es[|es| - 1]]
  }

  predicate By(es: seq<Event>, bound: Time) { forall k :: 0 <= k < |es| ==> es[k].at <= bound }

  lemma MonotoneSnoc(es: seq<Event>, e: Event)
    requires Monotone(es) && By(es, e.at)
    ensures Monotone(es + [e]) && By(es + [e], e.at)
  {
  }

  lemma MonotoneFront(es: seq<Event>)
    requires Monotone(es) && LookFree(es) && es != []
    ensures var (front, e) := (es[..|es| - 1], es[|es| - 1]);
            Monotone(front) && LookFree(front) && By(front, e.at) && es == front + [e] && !e.Look?
  {
  }

  lemma {:induction false} LookAtIsSchedule(es: seq<Event>, at: Time, bound: Time)
    requires Monotone(es) && LookFree(es) && at <= bound && By(es, bound)
    ensures Monotone(LookAt(es, at)) && Reports(LookAt(es, at)) == es && By(LookAt(es, at), bound)
  {
    if es == [] || es[|es| - 1].at <= at {
      RunSnoc(es, Look(at));
      LookFreeIsReports(es);
      MonotoneSnoc(es, Look(at));
    } else {
      var (front, e) := (es[..|es| - 1], es[|es| - 1]);
      MonotoneFront(es);
      LookAtIsSchedule(front, at, e.at);
      RunSnoc(LookAt(front, at), e);
      MonotoneSnoc(LookAt(front, at), e);
    }
  }

  /** The look drops a text last seen more than 30 s before it and keeps one last
      seen at most 30 s before it. */
  lemma {:induction false} LookAtDrops(es: seq<Event>, at: Time, x: string, y: string)
    requires Monotone(es) && LookFree(es)
    requires LastSeen(es, x).Some? && at - LastSeen(es, x).value > WARNING_TIMEOUT
    requires LastSeen(es, y).Some? && LastSeen(es, y).value <= at && at - LastSeen(es, y).value <= WARNING_TIMEOUT
    ensures var ws := Run(INITIAL, LookAt(es, at)).warnings; !Lists(ws, x) && Lists(ws, y)
  {
    var (front, e) := (es[..|es| - 1], es[|es| - 1]);
    if e.at <= at {
      RunSnoc(es, Look(at));
      ListedIsCurrent(es, at, x);
      ListedIsCurrent(es, at, y);
    } else {
      LookAtDrops(front, at, x, y);
      var ws := Run(INITIAL, LookAt(front, at)).warnings;
      RunSnoc(LookAt(front, at), e);
      if e.StatusText? && Noted(e.severity, e.text) {
        TouchLists(ws, e.text, e.at, x);
        TouchLists(ws, e.text, e.at, y);
      }
    }
  }

  /** When to look so that x goes and y stays: as late as y is still current. */
  function LookTime(es: seq<Event>, y: string, again: Time): Time
    requires LastSeen(es, y).Some?
  {
    if again - LastSeen(es, y).value <= WARNING_TIMEOUT then again else LastSeen(es, y).value + WARNING_TIMEOUT
  }

  predicate OvertakenNow(front: seq<Event>, e: Event, x: string, y: string) {
    && Speaks(e, x) && LastSeen(front, x).Some? && e.at - LastSeen(front, x).value > WARNING_TIMEOUT
    && LastSeen(front, y).Some? && LastSeen(front, y).value > LastSeen(front, x).value
  }

  /** The reports with one look that lets y overtake x. */
  function Swapped(es: seq<Event>, x: string, y: string): seq<Event>
    requires Overtaken(es, x, y)
  {
    var (front, e) := (es[..|es| - 1], es[|es| - 1]);
    if OvertakenNow(front, e, x, y) then LookAt(front, LookTime(front, y, e.at)) + [e]
    else Swapped(front, x, y) + [e]
  }

  lemma {:induction false} SeenInTime(es: seq<Event>, text: string)
    requires Monotone(es) && LastSeen(es, text).Some?
    ensures es != [] && LastSeen(es, text).value <= es[|es| - 1].at
  {
    if !Speaks(es[|es| - 1], text) {
      SeenInTime(es[..|es| - 1], text);
    }
  }

  lemma {:induction false} SwappedIsSchedule(es: seq<Event>, x: string, y: string)
    requires Monotone(es) && LookFree(es) && Overtaken(es, x, y)
    ensures Monotone(Swapped(es, x, y)) && Reports(Swapped(es, x, y)) == es
    ensures Swapped(es, x, y) != [] && By(Swapped(es, x, y), es[|es| - 1].at)
  {
    var (front, e) := (es[..|es| - 1], es[|es| - 1]);
    MonotoneFront(es);
    if OvertakenNow(front, e, x, y) {
      var at := LookTime(front, y, e.at);
      LookAtIsSchedule(front, at, e.at);
      RunSnoc(LookAt(front, at), e);
      MonotoneSnoc(LookAt(front, at), e);
    } else {
      SwappedIsSchedule(front, x, y);
      RunSnoc(Swapped(front, x, y), e);
      assert front != [] && front[|front| - 1].at <= e.at;
      MonotoneSnoc(Swapped(front, x, y), e);
    }
  }

  lemma {:induction false} SwappedOvertakes(es: seq<Event>, x: string, y: string)
    requires Monotone(es) && LookFree(es) && Overtaken(es, x, y)
    ensures Precedes(Run(INITIAL, Swapped(es, x, y)).warnings, y, x)
  {
    var (front, e) := (es[..|es| - 1], es[|es| - 1]);
    MonotoneFront(es);
    if OvertakenNow(front, e, x, y) {
      var at := LookTime(front, y, e.at);
      SeenInTime(front, y);
      LookAtDrops(front, at, x, y);
      RunSnoc(LookAt(front, at), e);
      TouchPrecedes(Run(INITIAL, LookAt(front, at)).warnings, x, e.at, y, x);
    } else {
      SwappedOvertakes(front, x, y);
      var ws := Run(INITIAL, Swapped(front, x, y)).warnings;
      RunSnoc(Swapped(front, x, y), e);
      if e.StatusText? && Noted(e.severity, e.text) {
        TouchPrecedes(ws, e.text, e.at, y, x);
      }
    }
  }

  lemma {:induction false} PruneCons(ws: seq<Warning>, now: Time)
    requires ws != []
    ensures Prune(ws, now) == if now - ws[0].lastSeen <= WARNING_TIMEOUT then [ws[0]] + Prune(ws[1..], now)
            else Prune(ws[1..], now)
  {
    assert [] + Prune(ws[1..], now) == Prune(ws[1..], now);
  }

  lemma PruneHead(ws: seq<Warning>, now: Time, x: string, y: string)
    requires ws != [] && Precedes(Prune(ws[1..], now), x, y)
    ensures Precedes(Prune(ws, now), x, y)
  {
    HeadPrecedes(ws[0], Prune(ws[1..], now), x, y);
    PruneCons(ws, now);
  }

  lemma {:induction false} PruneKeepsOrder(ws: seq<Warning>, now: Time, x: string, y: string)
    requires Distinct(ws) && Precedes(ws, x, y) && Lists(Prune(ws, now), x) && Lists(Prune(ws, now), y)
    ensures Precedes(Prune(ws, now), x, y)
  {
    var (rest, r) := (ws[1..], Prune(ws[1..], now));
    HeadPrecedes(ws[0], rest, x, y);
    assert ws == [ws[0]] + rest;
    TailLists(ws);
    KeptLists(ws, now, x);
    KeptLists(ws, now, y);
    if Precedes(rest, x, y) {
      PrecedesIsListed(rest, x, y);
      PruneKeepsOrder(rest, now, x, y);
      PruneHead(ws, now, x, y);
    } else {
      HeadPrecedes(ws[0], r, x, y);
      if Lists(r, x) {
        PruneLists(rest, now, x);
      }
    }
  }

  lemma {:induction false} KeptLists(ws: seq<Warning>, now: Time, text: string)
    requires ws != [] && Lists(Prune(ws, now), text)
    ensures text != ws[0].text ==> Lists(Prune(ws[1..], now), text)
    ensures !Lists(Prune(ws[1..], now), text) ==> now - ws[0].lastSeen <= WARNING_TIMEOUT
  {
    var k :| 0 <= k < |Prune(ws, now)| && Prune(ws, now)[k].text == text;
    MemberIsListed(Prune(ws[1..], now), Prune(ws, now)[k]);
  }

  lemma OneOrder(ws: seq<Warning>, x: string, y: string)
    requires Distinct(ws) && Precedes(ws, x, y)
    ensures !Precedes(ws, y, x)
  {
    var i, j :| 0 <= i < j < |ws| && ws[i].text == x && ws[j].text == y;
    assert forall k :: 0 <= k < |ws| ==> (ws[k].text == x ==> k == i) && (ws[k].text == y ==> k == j);
  }

  lemma SameTextsPrecede(a: seq<Warning>, b: seq<Warning>, x: string, y: string)
    requires Texts(a) == Texts(b) && Precedes(b, x, y)
    ensures Precedes(a, x, y)
  {
    var i, j :| 0 <= i < j < |b| && b[i].text == x && b[j].text == y;
    assert Texts(b)[i] == x && Texts(b)[j] == y;
    assert a[i].text == x && a[j].text == y;
  }

  lemma OppositeOrders(a: seq<Warning>, b: seq<Warning>, x: string, y: string)
    requires Distinct(a) && Precedes(a, x, y) && Precedes(b, y, x)
    ensures Texts(a) != Texts(b)
  {
    if Texts(a) == Texts(b) {
      SameTextsPrecede(a, b, y, x);
      OneOrder(a, x, y);
    }
  }

  lemma {:induction false} UnsettledListsDiffer(reports: seq<Event>, now: Time, x: string, y: string)
    requires Monotone(reports) && LookFree(reports) && (reports != [] ==> reports[|reports| - 1].at <= now)
    requires Current(reports, x, now) && Current(reports, y, now)
             && FirstBefore(reports, x, y) && Overtaken(reports, x, y)
    ensures ScheduleOf(Swapped(reports, x, y), reports, now)
    ensures Texts(Shown(Swapped(reports, x, y), now)) != Texts(Shown(reports, now))
  {
    var a := Swapped(reports, x, y);
    SwappedIsSchedule(reports, x, y);
    SwappedOvertakes(reports, x, y);
    UnlookedOrder(reports, x, y);
    LooksOnlyPrune(a, x);
    LooksOnlyPrune(a, y);
    ListedIsCurrent(a, now, x);
    ListedIsCurrent(a, now, y);
    ListedIsCurrent(reports, now, x);
    ListedIsCurrent(reports, now, y);
    WarningsAlways(a, now);
    WarningsAlways(reports, now);
    WarningsAgree(reports, now);
    PruneKeepsOrder(Run(INITIAL, a).warnings, now, y, x);
    PruneKeepsOrder(Run(INITIAL, reports).warnings, now, x, y);
    OppositeOrders(Shown(reports, now), Shown(a, now), x, y);
  }

  /** The list itself, not only the set, is the same however often somebody looked
      if and only if no text that is still current was overtaken, in a silence of
      more than 30 s, by a current one that was first reported after it. */
  lemma {:induction false} OrderSettledExactly(reports: seq<Event>, now: Time)
    requires Monotone(reports) && LookFree(reports) && (reports != [] ==> reports[|reports| - 1].at <= now)
    ensures Settled(reports, now) <==>
            forall es: seq<Event> :: ScheduleOf(es, reports, now) ==>
              SnapshotOf(Run(INITIAL, es), now).warnings == SnapshotOf(Run(INITIAL, reports), now).warnings
  {
    LookFreeIsReports(reports);
    if Settled(reports, now) {
      forall es: seq<Event> | ScheduleOf(es, reports, now)
        ensures SnapshotOf(Run(INITIAL, es), now).warnings == SnapshotOf(Run(INITIAL, reports), now).warnings
      {
        SettledListsAgree(es, reports, reports, now);
        SnapshotShows(es, now);
        SnapshotShows(reports, now);
      }
    } else {
      var x, y :| Current(reports, x, now) && Current(reports, y, now) &&
                  FirstBefore(reports, x, y) && Overtaken(reports, x, y);
      UnsettledListsDiffer(reports, now, x, y);
      SnapshotShows(Swapped(reports, x, y), now);
      SnapshotShows(reports, now);
    }
  }

  lemma {:induction false} SnapshotShows(es: seq<Event>, now: Time)
    ensures SnapshotOf(Run(INITIAL, es), now).warnings == Texts(Shown(es, now))
  {
  }
}
