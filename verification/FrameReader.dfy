/** Reading whole frames of a fixed size off a pipe that delivers them in pieces. */
module FrameReader {
  import opened FlightTypes

  /** How one round of waiting ends: a stop request, nothing for a while, an
      interrupted call, a failing one, or data of which one read delivers one
      byte and at most `more` beyond it. */
  datatype Answer = Stop | Idle(at: Time) | Interrupted | Broken | Ready(more: nat, at: Time)

  datatype Result = Complete | Stopped | EndOfFile | TimedOut | Failed

  /** The bytes still to come and the rounds still to happen. */
  datatype Pipe = Pipe(stream: seq<Byte>, answers: seq<Answer>)

  function Min(a: nat, b: nat): nat { if a <= b then a else b }

  /** What one read delivers when `wanted` bytes are asked for. */
  function Delivered(p: Pipe, wanted: nat): (n: nat)
    requires p.answers != [] && p.answers[0].Ready?
    ensures n <= wanted && n <= |p.stream|
  {
    Min(Min(wanted, |p.stream|), p.answers[0].more + 1)
  }

  datatype Outcome = Outcome(result: Result, frame: seq<Byte>, rest: Pipe)

  /** Read on, with `got` read so far and the last progress made at `progress`. */
  function Read(p: Pipe, size: nat, got: seq<Byte>, progress: Time, timeout: Time): (r: Outcome)
    requires |got| <= size
    ensures |got| <= |r.frame| <= size
    decreases |p.answers|
  {
    if |got| == size then Outcome(Complete, got, p)
    else if p.answers == [] then Outcome(Stopped, got, p)
    else
      var rest := p.(answers := p.answers[1..]);
      match p.answers[0]
      case Stop => Outcome(Stopped, got, rest)
      case Interrupted => Read(rest, size, got, progress, timeout)
      case Broken => Outcome(Failed, got, rest)
      case Idle(at) =>
        if at - progress >= timeout then Outcome(TimedOut, got, rest) else Read(rest, size, got, progress, timeout)
      case Ready(_, at) =>
        var n := Delivered(p, size - |got|);
        if n == 0 then Outcome(EndOfFile, got, rest)
        else Read(rest.(stream := p.stream[n..]), size, got + p.stream[..n], at, timeout)
  }

  /** No byte is lost, repeated or reordered: what was read and what is left are the
      stream; the frame is complete exactly when it has its size; the file ends
      only with the stream. */
  lemma {:induction false} ReadTakesAPrefix(p: Pipe, size: nat, got: seq<Byte>, progress: Time, timeout: Time)
    requires |got| <= size
    ensures var r := Read(p, size, got, progress, timeout);
            && r.frame + r.rest.stream == got + p.stream
            && |got| <= |r.frame| <= size && (r.result == Complete <==> |r.frame| == size)
            && (r.result == EndOfFile ==> r.rest.stream == [])
    decreases |p.answers|
  {
    if |got| < size && p.answers != [] {
      var rest := p.(answers := p.answers[1..]);
      match p.answers[0]
      case Ready(_, at) =>
        var n := Delivered(p, size - |got|);
        if n > 0 {
          ReadTakesAPrefix(rest.(stream := p.stream[n..]), size, got + p.stream[..n], at, timeout);
          assert got + p.stream[..n] + p.stream[n..] == got + p.stream;
        }
      case Stop =>
      case Broken =>
      case _ => ReadTakesAPrefix(rest, size, got, progress, timeout);
    }
  }

  /** Time is up only in a round with no data at least `timeout` after the last
      progress: never while every idle round comes sooner than that. */
  lemma {:induction false} NoTimeoutWhileProgressing(p: Pipe, size: nat, got: seq<Byte>, progress: Time, timeout: Time)
    requires |got| <= size && Prompt(p.answers, progress, timeout)
    ensures Read(p, size, got, progress, timeout).result != TimedOut
    decreases |p.answers|
  {
    if |got| < size && p.answers != [] {
      var rest := p.(answers := p.answers[1..]);
      match p.answers[0]
      case Ready(_, at) =>
        var n := Delivered(p, size - |got|);
        if n > 0 {
          NoTimeoutWhileProgressing(rest.(stream := p.stream[n..]), size, got + p.stream[..n], at, timeout);
        }
      case Stop =>
      case Broken =>
      case _ => NoTimeoutWhileProgressing(rest, size, got, progress, timeout);
    }
  }

  /** When the last byte arrived. */
  function LastProgress(answers: seq<Answer>, progress: Time): Time {
    if answers == [] then progress
    else if answers[|answers| - 1].Ready? then answers[|answers| - 1].at
    else LastProgress(answers[..|answers| - 1], progress)
  }

  lemma {:induction false} ProgressAfter(answers: seq<Answer>, progress: Time)
    requires answers != []
    ensures LastProgress(answers, progress) ==
            LastProgress(answers[1..], if answers[0].Ready? then answers[0].at else progress)
  {
    if |answers| > 1 {
      assert answers[..|answers| - 1][1..] == answers[1..][..|answers| - 2];
      ProgressAfter(answers[..|answers| - 1], progress);
    } else {
      assert answers[..0] == [] && answers[1..] == [];
    }
  }

  /** Round k found nothing at least `timeout` after the last byte. */
  predicate Late(answers: seq<Answer>, k: nat, progress: Time, timeout: Time)
    requires k < |answers|
  {
    answers[k].Idle? && answers[k].at - LastProgress(answers[..k], progress) >= timeout
  }

  /** The rounds used up. */
  function Used(p: Pipe, rest: Pipe): seq<Answer>
    requires |rest.answers| <= |p.answers|
  {
    p.answers[..|p.answers| - |rest.answers|]
  }

  lemma {:induction false} ReadUses(p: Pipe, size: nat, got: seq<Byte>, progress: Time, timeout: Time)
    requires |got| <= size
    ensures var r := Read(p, size, got, progress, timeout);
            |r.rest.answers| <= |p.answers| && r.rest.answers == p.answers[|p.answers| - |r.rest.answers|..]
    decreases |p.answers|
  {
    if |got| < size && p.answers != [] {
      var rest := p.(answers := p.answers[1..]);
      match p.answers[0]
      case Ready(_, at) =>
        var n := Delivered(p, size - |got|);
        if n > 0 { ReadUses(rest.(stream := p.stream[n..]), size, got + p.stream[..n], at, timeout); }
      case Interrupted => ReadUses(rest, size, got, progress, timeout);
      case Idle(at) => if at - progress < timeout { ReadUses(rest, size, got, progress, timeout); }
      case _ =>
    }
  }

  /** The first late round of these, if any, is the last of them. */
  ghost predicate EndsLate(used: seq<Answer>, late: bool, progress: Time, timeout: Time) {
    && (forall k :: 0 <= k < |used| - 1 ==> !Late(used, k, progress, timeout))
    && (late <==> used != [] && Late(used, |used| - 1, progress, timeout))
  }

  lemma EndsLater(first: Answer, later: seq<Answer>, late: bool, progress: Time, timeout: Time)
    requires first.Idle? ==> first.at - progress < timeout
    requires EndsLate(later, late, if first.Ready? then first.at else progress, timeout)
    ensures EndsLate([first] + later, late, progress, timeout)
  {
    var (used, progress') := ([first] + later, if first.Ready? then first.at else progress);
    forall k: nat | k < |later| ensures Late(used, k + 1, progress, timeout) == Late(later, k, progress', timeout) {
      ProgressAfter(used[..k + 1], progress);
      assert used[..k + 1][1..] == later[..k];
    }
    assert used[..0] == [] && !Late(used, 0, progress, timeout);
    forall k | 0 <= k < |used| - 1 ensures !Late(used, k, progress, timeout) {
      if k > 0 {
        var j: nat := k - 1;
        assert !Late(later, j, progress', timeout);
        assert Late(used, j + 1, progress, timeout) == Late(later, j, progress', timeout);
      }
    }
    if later != [] {
      var j: nat := |later| - 1;
      assert Late(used, j + 1, progress, timeout) == Late(later, j, progress', timeout);
    }
  }

  /** Reading times out exactly in the first round that is late. */
  lemma {:induction false} TimesOutExactly(p: Pipe, size: nat, got: seq<Byte>, progress: Time, timeout: Time)
    requires |got| <= size
    ensures var r := Read(p, size, got, progress, timeout);
            && |r.rest.answers| <= |p.answers|
            && EndsLate(Used(p, r.rest), r.result == TimedOut, progress, timeout)
    decreases |p.answers|
  {
    ReadUses(p, size, got, progress, timeout);
    var r := Read(p, size, got, progress, timeout);
    if |got| < size && p.answers != [] {
      var first := p.answers[0];
      var n := if first.Ready? then Delivered(p, size - |got|) else 0;
      if first.Interrupted? || (first.Idle? && first.at - progress < timeout) || (first.Ready? && n > 0) {
        var next := Pipe(p.stream[n..], p.answers[1..]);
        assert got + p.stream[..0] == got && p.stream[0..] == p.stream;
        TimesOutExactly(next, size, got + p.stream[..n], if first.Ready? then first.at else progress, timeout);
        assert Used(p, r.rest) == [first] + Used(next, r.rest);
        EndsLater(first, Used(next, r.rest), r.result == TimedOut, progress, timeout);
      } else {
        assert Used(p, r.rest) == [first] && [first][..0] == [];
      }
    }
  }

  predicate Prompt(answers: seq<Answer>, progress: Time, timeout: Time) {
    answers != [] ==>
      match answers[0]
      case Idle(at) => at - progress < timeout && Prompt(answers[1..], progress, timeout)
      case Ready(_, at) => Prompt(answers[1..], at, timeout)
      case _ => Prompt(answers[1..], progress, timeout)
  }

  /** Frame after frame until one is not complete. */
  function Frames(p: Pipe, size: nat, timeout: Time, starts: seq<Time>): seq<seq<Byte>>
    decreases |starts|
  {
    if starts == [] then []
    else
      var r := Read(p, size, [], starts[0], timeout);
      if r.result != Complete then [] else [r.frame] + Frames(r.rest, size, timeout, starts[1..])
  }

  /** Where frame i starts. */
  function Offset(i: nat, size: nat): nat { if i == 0 then 0 else Offset(i - 1, size) + size }

  lemma {:induction false} OffsetIsProduct(i: nat, size: nat)
    ensures Offset(i, size) == i * size
  {
    if i > 0 {
      OffsetIsProduct(i - 1, size);
    }
  }

  /** The frames are the stream cut into consecutive pieces of the frame size. */
  lemma {:induction false} FramesAreConsecutive(p: Pipe, size: nat, timeout: Time, starts: seq<Time>, i: nat)
    requires i < |Frames(p, size, timeout, starts)|
    ensures Offset(i + 1, size) <= |p.stream|
    ensures Frames(p, size, timeout, starts)[i] == p.stream[Offset(i, size)..Offset(i + 1, size)]
    decreases |starts|
  {
    var r := Read(p, size, [], starts[0], timeout);
    ReadTakesAPrefix(p, size, [], starts[0], timeout);
    assert [] + p.stream == p.stream;
    assert p.stream[..size] == r.frame && p.stream[size..] == r.rest.stream;
    if i > 0 {
      FramesAreConsecutive(r.rest, size, timeout, starts[1..], i - 1);
      Dropped(p.stream, size, Offset(i - 1, size), Offset(i, size));
    }
  }

  lemma Dropped(s: seq<Byte>, n: nat, lo: nat, hi: nat)
    requires n <= |s| && lo <= hi <= |s| - n
    ensures s[n..][lo..hi] == s[lo + n..hi + n]
  {
  }

  method CopyTo(destination: array<Byte>, offset: nat, data: seq<Byte>)
    requires offset + |data| <= destination.Length
    modifies destination
    ensures destination[..offset + |data|] == old(destination[..offset]) + data
    ensures forall k :: offset + |data| <= k < destination.Length ==> destination[k] == old(destination[k])
  {
    forall k | 0 <= k < |data| {
      destination[offset + k] := data[k];
    }
  }

  /** The reading loop, filling the destination in place. */
  method ReadExact(pipe: Pipe, destination: array<Byte>, start: Time, timeout: Time)
    returns (result: Result, rest: Pipe)
    modifies destination
    ensures var r := Read(pipe, destination.Length, [], start, timeout);
            && result == r.result && rest == r.rest
            && destination[..|r.frame|] == r.frame
            && forall k :: |r.frame| <= k < destination.Length ==> destination[k] == old(destination[k])
  {
    rest := pipe;
    var offset, lastProgress := 0, start;
    while offset < destination.Length
      invariant 0 <= offset <= destination.Length
      invariant forall k :: offset <= k < destination.Length ==> destination[k] == old(destination[k])
      invariant Read(pipe, destination.Length, [], start, timeout) ==
                Read(rest, destination.Length, destination[..offset], lastProgress, timeout)
      decreases |rest.answers|
    {
      if rest.answers == [] {
        return Stopped, rest;
      }
      var answer, next := rest.answers[0], rest.(answers := rest.answers[1..]);
      match answer {
        case Stop => return Stopped, next;
        case Interrupted => rest := next;
        case Broken => return Failed, next;
        case Idle(at) =>
          if at - lastProgress >= timeout {
            return TimedOut, next;
          }
          rest := next;
        case Ready(_, at) =>
          var count := Delivered(rest, destination.Length - offset);
          if count == 0 {
            return EndOfFile, next;
          }
          CopyTo(destination, offset, rest.stream[..count]);
          rest, offset, lastProgress := next.(stream := rest.stream[count..]), offset + count, at;
      }
    }
    return Complete, rest;
  }
}
