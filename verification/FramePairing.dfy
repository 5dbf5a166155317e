/** Capture times: read out of the metadata lines and paired with frames in order. */
module Pairing {
  import opened FlightTypes
  import opened Lines

  const KEY := "\"FrameWallClock\""
  const INT64_MAX := 0x7FFF_FFFF_FFFF_FFFF

  // --- Reading one line ---

  predicate Digit(c: char) { '0' <= c <= '9' }

  predicate At(s: string, text: string, k: nat) { k + |text| <= |s| && s[k..k + |text|] == text }

  /** The first occurrence of a text at or after a position. */
  function Occurrence(s: string, text: string, from: nat): (r: Option<nat>)
    ensures r.Some? ==> from <= r.value && At(s, text, r.value)
    decreases |s| - from
  {
    if from + |text| > |s| then None
    else if At(s, text, from) then Some(from)
    else if from == |s| then None
    else Occurrence(s, text, from + 1)
  }

  /** The first position at or after `from` whose character is (or is not) a digit; the length if there is none. */
  function FirstWhere(s: string, digit: bool, from: nat): (r: nat)
    requires from <= |s|
    ensures from <= r <= |s|
    decreases |s| - from
  {
    if from == |s| || Digit(s[from]) == digit then from else FirstWhere(s, digit, from + 1)
  }

  function Number(digits: string): nat
    requires forall i :: 0 <= i < |digits| ==> Digit(digits[i])
  {
    assert digits != [] ==> Digit(Last(digits));
    if digits == [] then 0 else 10 * Number(digits[..|digits| - 1]) + (Last(digits) as int - '0' as int)
  }

  /** The first number after the colon, if it fits 64 bits. */
  function NumberAfter(line: string, colon: nat): (r: Option<int>)
    requires colon < |line|
    ensures r.Some? ==> 0 <= r.value <= INT64_MAX
  {
    var first := FirstWhere(line, true, colon + 1);
    if first == |line| then None
    else
      var last := FirstWhere(line, false, first);
      DigitsBetween(line, first);
      var n := Number(line[first..last]);
      if n > INT64_MAX then None else Some(n)
  }

  function Parse(line: string): (r: Option<int>)
    ensures r.Some? ==> 0 <= r.value <= INT64_MAX
  {
    var key := Occurrence(line, KEY, 0);
    if key.None? then None
    else
      var colon := Occurrence(line, ":", key.value + |KEY|);
      if colon.None? then None else NumberAfter(line, colon.value)
  }

  lemma {:induction false} DigitsBetween(s: string, from: nat)
    requires from <= |s|
    ensures forall i :: from <= i < FirstWhere(s, false, from) ==> Digit(s[i])
    decreases |s| - from
  {
    if from < |s| && Digit(s[from]) {
      DigitsBetween(s, from + 1);
    }
  }

  lemma {:induction false} OccurrenceIsFirst(s: string, text: string, from: nat)
    ensures var r := Occurrence(s, text, from);
            forall k: nat :: from <= k && At(s, text, k) ==> r.Some? && r.value <= k
    decreases |s| - from
  {
    if from + |text| <= |s| && !At(s, text, from) && from < |s| {
      OccurrenceIsFirst(s, text, from + 1);
    }
  }

  lemma {:induction false} FirstWhereSkips(s: string, digit: bool, from: nat)
    requires from <= |s|
    ensures var r := FirstWhere(s, digit, from);
            && (forall k :: from <= k < r ==> Digit(s[k]) != digit)
            && (r < |s| ==> Digit(s[r]) == digit)
    decreases |s| - from
  {
    if from < |s| && Digit(s[from]) != digit {
      FirstWhereSkips(s, digit, from + 1);
    }
  }

  /** The first key is at `key`, the first colon after it at `colon`, and the first
      run of digits after that goes from `first` to `last`. */
  datatype Spelling = Spelling(key: nat, colon: nat, first: nat, last: nat)

  ghost predicate FindsKey(line: string, w: Spelling) {
    && At(line, KEY, w.key) && (forall k: nat :: k < w.key ==> !At(line, KEY, k))
    && w.key + |KEY| <= w.colon && At(line, ":", w.colon)
    && (forall k: nat :: w.key + |KEY| <= k < w.colon ==> !At(line, ":", k))
  }

  ghost predicate FindsDigits(line: string, w: Spelling) {
    && w.colon < w.first < w.last <= |line|
    && (forall k :: w.colon < k < w.first ==> !Digit(line[k]))
    && (forall k :: w.first <= k < w.last ==> Digit(line[k]))
    && (w.last < |line| ==> !Digit(line[w.last]))
  }

  ghost predicate Spells(line: string, n: nat, w: Spelling) {
    FindsKey(line, w) && FindsDigits(line, w) && Number(line[w.first..w.last]) == n
  }

  lemma {:induction false} KeyIsFound(line: string, w: Spelling)
    requires FindsKey(line, w)
    ensures Occurrence(line, KEY, 0) == Some(w.key) && Occurrence(line, ":", w.key + |KEY|) == Some(w.colon)
  {
    OccurrenceIsFirst(line, KEY, 0);
    OccurrenceIsFirst(line, ":", w.key + |KEY|);
  }

  lemma {:induction false} DigitsAreFound(line: string, w: Spelling)
    requires FindsDigits(line, w)
    ensures FirstWhere(line, true, w.colon + 1) == w.first && FirstWhere(line, false, w.first) == w.last
  {
    FirstWhereSkips(line, true, w.colon + 1);
    FirstWhereSkips(line, false, w.first);
    assert Digit(line[w.first]);
  }

  lemma SpelledNumber(line: string, n: nat, w: Spelling)
    requires FindsDigits(line, w) && Number(line[w.first..w.last]) == n
    ensures NumberAfter(line, w.colon) == if n > INT64_MAX then None else Some(n)
  {
    DigitsAreFound(line, w);
  }

  lemma ParseAfterColon(line: string, key: nat, colon: nat)
    requires Occurrence(line, KEY, 0) == Some(key) && Occurrence(line, ":", key + |KEY|) == Some(colon)
    ensures Parse(line) == NumberAfter(line, colon)
  {
  }

  lemma SpelledIsRead(line: string, n: nat, w: Spelling)
    requires Spells(line, n, w)
    ensures Parse(line) == if n > INT64_MAX then None else Some(n)
  {
    KeyIsFound(line, w);
    ParseAfterColon(line, w.key, w.colon);
    SpelledNumber(line, n, w);
  }

  lemma {:induction false} FoundKey(line: string, w: Spelling)
    requires Occurrence(line, KEY, 0) == Some(w.key) && Occurrence(line, ":", w.key + |KEY|) == Some(w.colon)
    ensures FindsKey(line, w)
  {
    OccurrenceIsFirst(line, KEY, 0);
    OccurrenceIsFirst(line, ":", w.key + |KEY|);
  }

  lemma {:induction false} FoundDigits(line: string, w: Spelling)
    requires w.colon + 1 <= |line| && FirstWhere(line, true, w.colon + 1) == w.first
    requires w.first < |line| && FirstWhere(line, false, w.first) == w.last
    ensures FindsDigits(line, w)
  {
    FirstWhereSkips(line, true, w.colon + 1);
    FirstWhereSkips(line, false, w.first);
  }

  function SpellingOf(line: string): (w: Spelling)
    requires Parse(line).Some?
    ensures Occurrence(line, KEY, 0) == Some(w.key) && Occurrence(line, ":", w.key + |KEY|) == Some(w.colon)
    ensures w.colon + 1 <= |line| && FirstWhere(line, true, w.colon + 1) == w.first
    ensures w.first < |line| && FirstWhere(line, false, w.first) == w.last
  {
    var key := Occurrence(line, KEY, 0).value;
    var colon := Occurrence(line, ":", key + |KEY|).value;
    var first := FirstWhere(line, true, colon + 1);
    Spelling(key, colon, first, FirstWhere(line, false, first))
  }

  lemma ReadIsSpelled(line: string)
    requires Parse(line).Some?
    ensures Spells(line, Parse(line).value, SpellingOf(line))
  {
    var w := SpellingOf(line);
    FoundKey(line, w);
    FoundDigits(line, w);
  }

  /** A clock is read from exactly the lines that spell one that fits 64 bits. */
  lemma ParseMeaning(line: string, n: nat)
    ensures Parse(line) == Some(n) <==> n <= 0x7FFF_FFFF_FFFF_FFFF && exists w: Spelling :: Spells(line, n, w)
  {
    if Parse(line) == Some(n) {
      ReadIsSpelled(line);
    }
    forall w: Spelling | Spells(line, n, w)
      ensures Parse(line) == if n > INT64_MAX then None else Some(n)
    {
      SpelledIsRead(line, n, w);
    }
  }

  function Decimal(n: nat): (ds: string)
    ensures ds != [] && forall i :: 0 <= i < |ds| ==> Digit(ds[i])
  {
    var last := ['0' + (n % 10) as char];
    if n < 10 then last else Decimal(n / 10) + last
  }

  lemma {:induction false} NumberOfDecimal(n: nat)
    ensures Number(Decimal(n)) == n
  {
    if n >= 10 {
      NumberOfDecimal(n / 10);
      var ds := Decimal(n);
      assert ds[..|ds| - 1] == Decimal(n / 10);
    }
  }

  function ClockLine(digits: string): string { "{" + "\"FrameWallClock\"" + ":" + digits + "}" }

  function ClockSpelling(digits: string): Spelling {
    var k := 1 + |KEY|;
    Spelling(1, k, k + 1, k + 1 + |digits|)
  }

  lemma ClockLineHasKey(digits: string)
    ensures FindsKey(ClockLine(digits), ClockSpelling(digits))
  {
    var (line, k) := (ClockLine(digits), 1 + |KEY|);
    assert line[1..k] == KEY && line[k..k + 1] == ":";
    assert line[0..|KEY|][0] == '{' && KEY[0] == '"';
  }

  lemma ClockLineHasDigits(digits: string)
    requires digits != [] && forall i :: 0 <= i < |digits| ==> Digit(digits[i])
    ensures FindsDigits(ClockLine(digits), ClockSpelling(digits))
    ensures var w := ClockSpelling(digits); ClockLine(digits)[w.first..w.last] == digits
  {
    var (line, w) := (ClockLine(digits), ClockSpelling(digits));
    assert line[w.first..w.last] == digits;
    assert forall i :: w.first <= i < w.last ==> line[i] == digits[i - w.first];
    assert w.last < |line| && line[w.last] == '}';
  }

  /** Every 64-bit time survives being written out and read back. */
  lemma ClockRoundTrip(n: nat)
    requires n <= 0x7FFF_FFFF_FFFF_FFFF
    ensures Parse(ClockLine(Decimal(n))) == Some(n)
  {
    ClockLineHasKey(Decimal(n));
    ClockLineHasDigits(Decimal(n));
    NumberOfDecimal(n);
    SpelledIsRead(ClockLine(Decimal(n)), n, ClockSpelling(Decimal(n)));
  }

  // --- Frames and capture times of one attempt ---

  /** What happens next: a chunk of metadata arrives, the reader takes the next
      complete line of what it has, or meets the end of the stream; a complete frame
      asks for its capture time (waiting ended); or the next attempt starts. */
  datatype Event = Chunk(text: string) | NextLine | EndOfStream | FrameRead | NewAttempt

  /** The queued times, whether frames are being read, and the reader's unfinished text. */
  datatype Queue = Queue(times: seq<int>, running: bool, pending: string, ended: bool)

  const IDLE := Queue([], false, "", true)

  function Values(lines: seq<string>): seq<int> {
    if lines == [] then []
    else
      var t := Parse(lines[|lines| - 1]);
      Values(lines[..|lines| - 1]) + if t.Some? then [t.value] else []
  }

  /** The line the reader handles: the first complete one, or at the end the rest. */
  function Handled(q: Queue, e: Event): Option<string> {
    if q.ended then None
    else if e.NextLine? && NEWLINE in q.pending then Some(q.pending[..FirstNewline(q.pending)])
    else if e.EndOfStream? && NEWLINE !in q.pending && q.pending != [] then Some(q.pending)
    else None
  }

  function Push(times: seq<int>, line: Option<string>): seq<int> {
    if line.None? then times
    else
      var t := Parse(line.value);
      if t.Some? then times + [t.value] else times
  }

  /** A frame takes the oldest time; when there is none the attempt is over. An
      event the reader's text rules out does nothing. */
  function Step(q: Queue, e: Event): Queue {
    match e
    case Chunk(text) => if q.ended then q else q.(pending := q.pending + text)
    case NextLine =>
      if q.ended || NEWLINE !in q.pending then q
      else q.(times := Push(q.times, Handled(q, e)), pending := q.pending[FirstNewline(q.pending) + 1..])
    case EndOfStream =>
      if q.ended || NEWLINE in q.pending then q
      else q.(times := Push(q.times, Handled(q, e)), pending := "", ended := true)
    case FrameRead =>
      if !q.running then q
      else if q.times == [] then q.(running := false)
      else q.(times := q.times[1..])
    case NewAttempt => Queue([], true, "", false)
  }

  function Run(es: seq<Event>): Queue {
    if es == [] then IDLE else Step(Run(es[..|es| - 1]), es[|es| - 1])
  }

  /** The metadata that has arrived since the attempt began. */
  function Arrived(es: seq<Event>): string {
    if es == [] || es[|es| - 1].NewAttempt? then []
    else
      var (front, e) := (es[..|es| - 1], es[|es| - 1]);
      Arrived(front) + if e.Chunk? && !Run(front).ended then e.text else []
  }

  /** The metadata lines handled since the attempt began. */
  function LinesHandled(es: seq<Event>): seq<string> {
    if es == [] || es[|es| - 1].NewAttempt? then []
    else
      var (front, e) := (es[..|es| - 1], es[|es| - 1]);
      var line := Handled(Run(front), e);
      LinesHandled(front) + if line.Some? then [line.value] else []
  }

  /** The capture times of the frames published since the attempt began. */
  function Published(es: seq<Event>): seq<int> {
    if es == [] || es[|es| - 1].NewAttempt? then []
    else
      var (front, e) := (es[..|es| - 1], es[|es| - 1]);
      var q := Run(front);
      Published(front) + if e.FrameRead? && q.running && q.times != [] then [q.times[0]] else []
  }

  // --- The queue ---

  lemma PushValues(published: seq<int>, times: seq<int>, lines: seq<string>, line: string)
    requires published + times == Values(lines)
    ensures published + Push(times, Some(line)) == Values(lines + [line])
  {
    assert (lines + [line])[..|lines|] == lines;
    var t := Parse(line);
    if t.Some? {
      assert published + (times + [t.value]) == (published + times) + [t.value];
    }
  }

  lemma {:induction false} StepQueues(q: Queue, published: seq<int>, lines: seq<string>, e: Event)
    requires published + q.times == Values(lines) && !e.NewAttempt?
    ensures var out := if e.FrameRead? && q.running && q.times != [] then [q.times[0]] else [];
            var line := Handled(q, e);
            published + out + Step(q, e).times == Values(lines + if line.Some? then [line.value] else [])
  {
    var line := Handled(q, e);
    assert published + [] == published && lines + [] == lines;
    if line.Some? {
      PushValues(published, q.times, lines, line.value);
    } else if e.FrameRead? && q.running && q.times != [] {
      assert published + [q.times[0]] + q.times[1..] == published + q.times;
    }
  }

  /** What is published and what waits are together all the times read, in order. */
  lemma {:induction false} TimesAreQueued(es: seq<Event>)
    ensures Published(es) + Run(es).times == Values(LinesHandled(es))
  {
    if es != [] && !es[|es| - 1].NewAttempt? {
      var (front, e) := (es[..|es| - 1], es[|es| - 1]);
      TimesAreQueued(front);
      StepQueues(Run(front), Published(front), LinesHandled(front), e);
    }
  }

  // --- The reader ---

  /** The lines handled and those still in the reader's text are the lines of what
      has arrived; at the end all of them have been handled. */
  predicate Reads(q: Queue, arrived: string, lines: seq<string>) {
    if q.ended then lines == Split(arrived)
    else lines + Complete(q.pending) == Complete(arrived) && Tail(q.pending) == Tail(arrived)
  }

  lemma ChunkReads(q: Queue, arrived: string, lines: seq<string>, text: string)
    requires !q.ended && Reads(q, arrived, lines)
    ensures Reads(Step(q, Chunk(text)), arrived + text, lines)
  {
    SplitResumes(q.pending, text);
    SplitResumes(arrived, text);
    var more := Complete(Tail(arrived) + text);
    assert lines + (Complete(q.pending) + more) == (lines + Complete(q.pending)) + more;
  }

  lemma LineReads(q: Queue, arrived: string, lines: seq<string>)
    requires !q.ended && NEWLINE in q.pending && Reads(q, arrived, lines)
    ensures Reads(Step(q, NextLine), arrived, lines + [Handled(q, NextLine).value])
  {
    var k := FirstNewline(q.pending);
    var (line, rest) := (q.pending[..k], q.pending[k + 1..]);
    FirstLine(line, rest);
    assert q.pending == line + [NEWLINE] + rest;
    assert lines + ([line] + Complete(rest)) == (lines + [line]) + Complete(rest);
  }

  lemma EndReads(q: Queue, arrived: string, lines: seq<string>)
    requires !q.ended && NEWLINE !in q.pending && Reads(q, arrived, lines)
    ensures var line := Handled(q, EndOfStream);
            Reads(Step(q, EndOfStream), arrived, lines + if line.Some? then [line.value] else [])
  {
    NoNewline(q.pending);
    assert lines + [] == lines;
  }

  lemma {:induction false} ReaderReadsLines(es: seq<Event>)
    ensures Reads(Run(es), Arrived(es), LinesHandled(es))
  {
    if es != [] && !es[|es| - 1].NewAttempt? {
      var (front, e) := (es[..|es| - 1], es[|es| - 1]);
      var (q, arrived, lines) := (Run(front), Arrived(front), LinesHandled(front));
      ReaderReadsLines(front);
      assert arrived + [] == arrived && lines + [] == lines;
      if !q.ended {
        match e
        case Chunk(text) => ChunkReads(q, arrived, lines, text);
        case NextLine => if NEWLINE in q.pending { LineReads(q, arrived, lines); }
        case EndOfStream => if NEWLINE !in q.pending { EndReads(q, arrived, lines); }
        case FrameRead =>
      }
    }
  }

  lemma {:induction false} ValuesOfPrefix(a: seq<string>, b: seq<string>)
    requires a <= b
    ensures Values(a) <= Values(b)
    decreases |b|
  {
    if |a| < |b| {
      ValuesOfPrefix(a, b[..|b| - 1]);
    } else {
      assert a == b;
    }
  }

  /** However frames and metadata interleave, however the metadata is cut into
      chunks and whatever of it is still to come, frame i of an attempt carries the
      i-th capture time of the attempt's metadata. */
  lemma {:induction false} FramesCarryTheirTimes(es: seq<Event>, more: string)
    requires Run(es).ended ==> more == []
    ensures Published(es) <= Values(Split(Arrived(es) + more))
  {
    TimesAreQueued(es);
    ReaderReadsLines(es);
    CompleteGrows(Arrived(es), more);
    assert Arrived(es) + [] == Arrived(es);
    ValuesOfPrefix(LinesHandled(es), Split(Arrived(es) + more));
  }

  // --- How an attempt goes ---

  /** The frames read since the attempt began. */
  function FramesRead(es: seq<Event>): nat {
    if es == [] || es[|es| - 1].NewAttempt? then 0
    else FramesRead(es[..|es| - 1]) + if es[|es| - 1].FrameRead? then 1 else 0
  }

  predicate Begun(es: seq<Event>) { exists k :: 0 <= k < |es| && es[k].NewAttempt? }

  lemma BegunSnoc(es: seq<Event>)
    requires es != []
    ensures Begun(es) <==> Begun(es[..|es| - 1]) || es[|es| - 1].NewAttempt?
  {
    if Begun(es[..|es| - 1]) {
      var k :| 0 <= k < |es| - 1 && es[..|es| - 1][k].NewAttempt?;
      assert es[k].NewAttempt?;
    }
  }

  /** An attempt goes on exactly as long as every frame it has read was published:
      the first frame without a capture time ends it. */
  lemma {:induction false} RunsWhilePaired(es: seq<Event>)
    ensures |Published(es)| <= FramesRead(es)
    ensures Run(es).running <==> Begun(es) && |Published(es)| == FramesRead(es)
  {
    if es != [] {
      RunsWhilePaired(es[..|es| - 1]);
      BegunSnoc(es);
    }
  }

  /** The metadata is over before the first attempt and once its end was met with
      every complete line handled. */
  predicate Over(es: seq<Event>) {
    es == [] ||
    var (front, e) := (es[..|es| - 1], es[|es| - 1]);
    !e.NewAttempt? &&
    (Over(front) || (e.EndOfStream? && |LinesHandled(front)| == |Complete(Arrived(front))|))
  }

  lemma {:induction false} EndsWithItsLines(es: seq<Event>)
    ensures Run(es).ended <==> Over(es)
  {
    if es != [] {
      var front := es[..|es| - 1];
      EndsWithItsLines(front);
      ReaderReadsLines(front);
      PendingLines(Run(front).pending);
    }
  }

  lemma {:induction false} PendingLines(pending: string)
    ensures Complete(pending) == [] <==> NEWLINE !in pending
  {
    if NEWLINE in pending {
      var k := FirstNewline(pending);
      FirstLine(pending[..k], pending[k + 1..]);
      assert pending == pending[..k] + [NEWLINE] + pending[k + 1..];
    } else {
      NoNewline(pending);
    }
  }

  // --- The component ---

  class MetadataQueue {
    var timestamps: seq<int>
    var pending: string
    ghost var running: bool
    ghost var ended: bool

    ghost function View(): Queue
      reads this
    {
      Queue(timestamps, running, pending, ended)
    }

    constructor ()
      ensures View() == Run([])
    {
      timestamps, pending, running, ended := [], "", false, true;
    }

    method PrepareAttempt()
      modifies this
      ensures View() == Step(old(View()), NewAttempt)
    {
      timestamps, pending, running, ended := [], "", true, false;
    }

    method OnLine(line: string)
      modifies this`timestamps
      ensures timestamps == Push(old(timestamps), Some(line))
    {
      var timestamp := Parse(line);
      if timestamp.None? {
        return;
      }
      timestamps := timestamps + [timestamp.value];
    }

    method OnChunk(text: string)
      requires !ended
      modifies this`pending
      ensures View() == Step(old(View()), Chunk(text))
    {
      pending := pending + text;
    }

    /** One round of the reader's inner loop. */
    method HandleNext() returns (handled: bool)
      requires !ended
      modifies this
      ensures View() == Step(old(View()), NextLine) && (handled <==> NEWLINE in old(pending))
    {
      var newline;
      handled, newline := Find(pending, NEWLINE);
      if !handled {
        return;
      }
      SameNewline(pending, newline);
      OnLine(pending[..newline]);
      pending := pending[newline + 1..];
    }

    method Finish()
      requires !ended && NEWLINE !in pending
      modifies this
      ensures View() == Step(old(View()), EndOfStream)
    {
      if pending != [] {
        OnLine(pending);
      }
      pending, ended := "", true;
    }

    /** The wait ended, with a time or without one. */
    method WaitForMetadata() returns (timestamp: Option<int>)
      requires running
      modifies this
      ensures View() == Step(old(View()), FrameRead)
      ensures timestamp == if old(timestamps) == [] then None else Some(old(timestamps)[0])
    {
      if timestamps == [] {
        running := false;
        return None;
      }
      timestamp := Some(timestamps[0]);
      timestamps := timestamps[1..];
    }
  }

  lemma SameNewline(s: string, k: nat)
    requires k < |s| && s[k] == NEWLINE && NEWLINE !in s[..k]
    ensures FirstNewline(s) == k
  {
    var f := FirstNewline(s);
    assert forall i :: 0 <= i < k ==> s[..k][i] == s[i];
    assert forall i :: 0 <= i < f ==> s[..f][i] == s[i];
  }
}
