/** Splitting a byte stream into lines while it arrives, and reading capture times
    out of the metadata lines. */
module Lines {
  import opened FlightTypes

  const NEWLINE: char := '\n'

  // --- The split of a whole stream ---

  function Last(s: string): char
    requires s != []
  {
    s[|s| - 1]
  }

  /** The text after the last newline. */
  function Tail(s: string): (t: string)
    ensures NEWLINE !in t && |t| <= |s|
  {
    if s == [] || Last(s) == NEWLINE then [] else Tail(s[..|s| - 1]) + [Last(s)]
  }

  /** The texts before each newline. */
  function Complete(s: string): (ls: seq<string>)
    ensures forall i :: 0 <= i < |ls| ==> NEWLINE !in ls[i]
  {
    if s == [] then []
    else
      var front := s[..|s| - 1];
      if Last(s) == NEWLINE then Complete(front) + [Tail(front)] else Complete(front)
  }

  /** The lines of a stream that has ended: a last line may lack its newline. */
  function Split(s: string): seq<string> {
    Complete(s) + if Tail(s) == [] then [] else [Tail(s)]
  }

  function Unsplit(ls: seq<string>): string {
    if ls == [] then [] else Unsplit(ls[..|ls| - 1]) + ls[|ls| - 1] + [NEWLINE]
  }

  lemma UnsplitSnoc(ls: seq<string>, l: string)
    ensures Unsplit(ls + [l]) == Unsplit(ls) + l + [NEWLINE]
  {
    assert (ls + [l])[..|ls|] == ls;
  }

  /** Lines and tail put back together are the stream. */
  lemma {:induction false} SplitLosesNothing(s: string)
    ensures Unsplit(Complete(s)) + Tail(s) == s
  {
    if s != [] {
      var front := s[..|s| - 1];
      SplitLosesNothing(front);
      UnsplitSnoc(Complete(front), Tail(front));
      assert s == Unsplit(Complete(front)) + Tail(front) + [Last(s)];
    }
  }

  lemma {:induction false} TailOfLine(s: string, t: string)
    requires NEWLINE !in t
    ensures Tail(s + [NEWLINE] + t) == t && Complete(s + [NEWLINE] + t) == Complete(s) + [Tail(s)]
  {
    var whole := s + [NEWLINE] + t;
    if t == [] {
      assert whole[..|whole| - 1] == s;
    } else {
      assert whole[..|whole| - 1] == s + [NEWLINE] + t[..|t| - 1];
      TailOfLine(s, t[..|t| - 1]);
    }
  }

  lemma {:induction false} NoNewline(t: string)
    requires NEWLINE !in t
    ensures Tail(t) == t && Complete(t) == []
  {
    if t != [] {
      NoNewline(t[..|t| - 1]);
    }
  }

  /** There is no other way to write a stream as newline-free lines and a tail. */
  lemma {:induction false} SplitIsUnique(ls: seq<string>, t: string)
    requires NEWLINE !in t && forall i :: 0 <= i < |ls| ==> NEWLINE !in ls[i]
    ensures Complete(Unsplit(ls) + t) == ls && Tail(Unsplit(ls) + t) == t
  {
    if ls == [] {
      assert Unsplit(ls) + t == t;
      NoNewline(t);
    } else {
      var (front, l) := (ls[..|ls| - 1], ls[|ls| - 1]);
      SplitIsUnique(front, l);
      TailOfLine(Unsplit(front) + l, t);
      assert Unsplit(ls) + t == Unsplit(front) + l + [NEWLINE] + t;
    }
  }

  /** Only the unfinished tail of what came before matters for what comes next. */
  lemma {:induction false} SplitResumes(a: string, b: string)
    ensures Complete(a + b) == Complete(a) + Complete(Tail(a) + b)
    ensures Tail(a + b) == Tail(Tail(a) + b)
  {
    if b == [] {
      assert a + b == a && Tail(a) + b == Tail(a);
      NoNewline(Tail(a));
    } else {
      var front := b[..|b| - 1];
      SplitResumes(a, front);
      assert (a + b)[..|a + b| - 1] == a + front;
      assert (Tail(a) + b)[..|Tail(a) + b| - 1] == Tail(a) + front;
    }
  }

  /** Lines are only ever added as more arrives. */
  lemma CompleteGrows(a: string, b: string)
    ensures Complete(a) <= Complete(a + b) && Complete(a) <= Split(a + b)
  {
    SplitResumes(a, b);
  }

  function Concat(chunks: seq<string>): string {
    if chunks == [] then [] else Concat(chunks[..|chunks| - 1]) + chunks[|chunks| - 1]
  }

  /** Where the first newline of a text is. */
  function FirstNewline(s: string): (k: nat)
    requires NEWLINE in s
    ensures k < |s| && s[k] == NEWLINE && NEWLINE !in s[..k]
  {
    if s[0] == NEWLINE then 0
    else
      var k := FirstNewline(s[1..]);
      assert s[..k + 1] == [s[0]] + s[1..][..k];
      k + 1
  }

  method Find(s: string, c: char) returns (found: bool, index: nat)
    ensures found <==> c in s
    ensures found ==> index < |s| && s[index] == c && c !in s[..index]
  {
    for i := 0 to |s|
      invariant c !in s[..i]
    {
      if s[i] == c {
        return true, i;
      }
      assert s[..i + 1] == s[..i] + [s[i]];
    }
    assert s[..|s|] == s;
    return false, 0;
  }

  lemma FirstLine(line: string, rest: string)
    requires NEWLINE !in line
    ensures Complete(line + [NEWLINE] + rest) == [line] + Complete(rest)
    ensures Tail(line + [NEWLINE] + rest) == Tail(rest)
  {
    var head := line + [NEWLINE];
    assert head + [] == head;
    TailOfLine(line, []);
    NoNewline(line);
    SplitResumes(head, rest);
    assert [] + rest == rest;
  }

  /** Consume every complete line of the pending text and keep the rest. */
  method ConsumeLines(text: string) returns (consumed: seq<string>, pending: string)
    ensures consumed == Complete(text) && pending == Tail(text)
  {
    consumed, pending := [], text;
    var found, newline := Find(pending, NEWLINE);
    while found
      invariant found <==> NEWLINE in pending
      invariant found ==> 0 <= newline < |pending| && pending[newline] == NEWLINE && NEWLINE !in pending[..newline]
      invariant consumed + Complete(pending) == Complete(text) && Tail(pending) == Tail(text)
      decreases |pending|
    {
      var (line, rest) := (pending[..newline], pending[newline + 1..]);
      FirstLine(line, rest);
      assert pending == line + [NEWLINE] + rest;
      consumed := consumed + [line];
      pending := rest;
      found, newline := Find(pending, NEWLINE);
    }
    NoNewline(pending);
  }

  /** However the stream is cut into chunks, exactly its lines are consumed. */
  method ReadLines(chunks: seq<string>) returns (consumed: seq<string>)
    ensures consumed == Split(Concat(chunks))
  {
    consumed := [];
    var pending := "";
    for i := 0 to |chunks|
      invariant consumed == Complete(Concat(chunks[..i])) && pending == Tail(Concat(chunks[..i]))
    {
      assert chunks[..i + 1][..i] == chunks[..i];
      SplitResumes(Concat(chunks[..i]), chunks[i]);
      var lines;
      lines, pending := ConsumeLines(pending + chunks[i]);
      consumed := consumed + lines;
    }
    assert chunks[..|chunks|] == chunks;
    if pending != [] {
      consumed := consumed + [pending];
    }
  }
}
