/** The one-frame mailbox between a camera worker and the consumer, under every
    interleaving of their locked sections, and what the consumer reports as dropped. */
module Mailbox {
  import opened FlightTypes

  /** Where the worker is: between attempts, reading, holding a complete numbered
      frame that is not published yet, or past the end of its attempt. */
  datatype Location = Between | Reading | Holding | Ended

  datatype Source = Source(
    at: Location,
    latest: Option<nat>,
    nextSequence: nat,
    produced: nat,
    overwritten: nat,
    restarts: nat)

  datatype Monitor = Monitor(last: Option<nat>, received: nat, gaps: nat)

  datatype State = State(source: Source, monitor: Monitor)

  const INITIAL := State(Source(Between, None, 0, 0, 0, 0), Monitor(None, 0, 0))

  /** One locked section of either thread. */
  datatype Event =
    | PrepareAttempt
    | ReadFrame
    | Publish
    | LoseMetadata // a complete frame for which no capture time arrived
    | EndAttempt
    | Reconnect
    | Poll

  predicate Allowed(at: Location, e: Event) {
    match e
    case PrepareAttempt => at == Between
    case ReadFrame | EndAttempt => at == Reading
    case Publish | LoseMetadata => at == Holding
    case Reconnect => at == Ended
    case Poll => true
  }

  function SourceStep(s: Source, e: Event): Source {
    match e
    case PrepareAttempt => s.(at := Reading, latest := None)
    case ReadFrame => s.(at := Holding, nextSequence := s.nextSequence + 1)
    case Publish =>
      s.(at := Reading, latest := Some(s.nextSequence), produced := s.produced + 1,
         overwritten := s.overwritten + if s.latest.Some? then 1 else 0)
    case LoseMetadata => s.(at := Ended)
    case EndAttempt => s.(at := Ended)
    case Reconnect => s.(at := Between, latest := None, restarts := s.restarts + 1)
    case Poll => s.(latest := None)
  }

  function Receive(m: Monitor, frame: Option<nat>): Monitor {
    if frame.None? then m
    else
      var skipped := if m.last.Some? && frame.value > m.last.value + 1 then frame.value - m.last.value - 1 else 0;
      Monitor(frame, m.received + 1, m.gaps + skipped)
  }

  /** An event the worker's location rules out does nothing, so that every
      sequence of events stands for one interleaving. */
  function Step(s: State, e: Event): State {
    if !Allowed(s.source.at, e) then s
    else State(SourceStep(s.source, e), if e == Poll then Receive(s.monitor, s.source.latest) else s.monitor)
  }

  function Run(es: seq<Event>): State {
    if es == [] then INITIAL else Step(Run(es[..|es| - 1]), es[|es| - 1])
  }

  // --- The fate of every sequence number ---

  datatype Fate = InHand | Pending | Taken | Overwritten | Discarded | Skipped

  /** Entry n - 1 is the fate of sequence number n. */
  function Settle(fates: seq<Fate>, n: Option<nat>, f: Fate): (r: seq<Fate>)
    ensures |r| == |fates|
  {
    if n.Some? && 1 <= n.value <= |fates| then fates[n.value - 1 := f] else fates
  }

  function Entry(s: Source, fates: seq<Fate>, e: Event): seq<Fate> {
    match e
    case PrepareAttempt => Settle(fates, s.latest, Discarded)
    case ReadFrame => fates + [InHand]
    case Publish => Settle(Settle(fates, s.latest, Overwritten), Some(s.nextSequence), Pending)
    case LoseMetadata => Settle(fates, Some(s.nextSequence), Skipped)
    case EndAttempt => fates
    case Reconnect => Settle(fates, s.latest, Discarded)
    case Poll => Settle(fates, s.latest, Taken)
  }

  function Ledger(es: seq<Event>): seq<Fate> {
    if es == [] then []
    else
      var (front, e) := (es[..|es| - 1], es[|es| - 1]);
      if Allowed(Run(front).source.at, e) then Entry(Run(front).source, Ledger(front), e) else Ledger(front)
  }

  /** The sequence numbers handed to the consumer, in order. */
  function Deliveries(es: seq<Event>): seq<nat> {
    if es == [] then []
    else
      var (front, e) := (es[..|es| - 1], es[|es| - 1]);
      var latest := Run(front).source.latest;
      if e == Poll && latest.Some? then Deliveries(front) + [latest.value] else Deliveries(front)
  }

  function Count(fates: seq<Fate>, f: Fate): nat {
    if fates == [] then 0 else Count(fates[..|fates| - 1], f) + if fates[|fates| - 1] == f then 1 else 0
  }

  function Losses(fates: seq<Fate>): nat {
    Count(fates, Overwritten) + Count(fates, Discarded) + Count(fates, Skipped)
  }

  /** The mailbox and the worker hold the pending number and the one in hand. */
  ghost predicate Places(s: Source, fates: seq<Fate>) {
    && |fates| == s.nextSequence
    && (s.latest.Some? ==> 1 <= s.latest.value <= |fates|)
    && (forall n :: 0 <= n < |fates| ==> (fates[n] == Pending <==> s.latest == Some(n + 1)))
    && (forall n :: 0 <= n < |fates| ==> (fates[n] == InHand <==> s.at == Holding && n + 1 == s.nextSequence))
    && (s.at == Holding ==> s.nextSequence > 0)
    && (s.at == Between ==> s.latest.None?)
  }

  /** The counters count fates, and a restart loses at most one published frame
      and follows at most one frame without metadata. */
  ghost predicate Counters(s: Source, fates: seq<Fate>) {
    && s.overwritten == Count(fates, Overwritten)
    && s.produced == Count(fates, Taken) + Count(fates, Overwritten) + Count(fates, Discarded) + Count(fates, Pending)
    && Count(fates, Discarded) <= s.restarts
    && Count(fates, Skipped) <= s.restarts + (if s.at == Ended then 1 else 0)
    && Count(fates, Pending) == (if s.latest.Some? then 1 else 0)
  }

  /** Deliveries are the taken numbers, in increasing order, and the monitor's
      arithmetic spans exactly the first to the last of them. */
  ghost predicate Received(s: State, fates: seq<Fate>, ds: seq<nat>) {
    && |ds| == s.monitor.received == Count(fates, Taken)
    && (forall i :: 0 <= i < |ds| ==> 1 <= ds[i] <= |fates| && fates[ds[i] - 1] == Taken)
    && (forall i, j :: 0 <= i < j < |ds| ==> ds[i] < ds[j])
    && s.monitor.last == (if ds == [] then None else Some(ds[|ds| - 1]))
    && (ds == [] ==> s.monitor.gaps == 0)
    && (ds != [] ==> s.monitor.received + s.monitor.gaps == ds[|ds| - 1] - ds[0] + 1)
    && (forall n :: 0 <= n < |fates| && fates[n] == Taken ==> ds != [] && ds[0] <= n + 1 <= ds[|ds| - 1])
    && (ds != [] && s.source.latest.Some? ==> ds[|ds| - 1] < s.source.latest.value)
    && (forall n :: 0 <= n < |fates| && (fates[n] == Pending || fates[n] == InHand) && ds != [] ==>
          ds[|ds| - 1] < n + 1)
  }

  lemma {:induction false} CountUpdate(fates: seq<Fate>, i: nat, f: Fate, g: Fate)
    requires i < |fates|
    ensures Count(fates[i := f], g) == Count(fates, g) - (if fates[i] == g then 1 else 0) + (if f == g then 1 else 0)
  {
    var n := |fates| - 1;
    if i < n {
      assert fates[i := f][..n] == fates[..n][i := f];
      CountUpdate(fates[..n], i, f, g);
    } else {
      assert fates[i := f][..n] == fates[..n];
    }
  }

  lemma {:induction false} CountSettle(fates: seq<Fate>, n: Option<nat>, f: Fate)
    requires n.Some? ==> 1 <= n.value <= |fates|
    ensures forall g :: Count(Settle(fates, n, f), g) ==
              Count(fates, g) +
                if n.None? then 0 else (if f == g then 1 else 0) - (if fates[n.value - 1] == g then 1 else 0)
  {
    if n.Some? {
      forall g ensures Count(fates[n.value - 1 := f], g) ==
                         Count(fates, g) + (if f == g then 1 else 0) - (if fates[n.value - 1] == g then 1 else 0) {
        CountUpdate(fates, n.value - 1, f, g);
      }
    }
  }

  lemma StepKeepsPlaces(s: Source, fates: seq<Fate>, e: Event)
    requires Places(s, fates) && Allowed(s.at, e)
    ensures Places(SourceStep(s, e), Entry(s, fates, e))
  {
    if s.at == Holding {
      assert fates[s.nextSequence - 1] == InHand;
    }
    match e
    case PrepareAttempt =>
    case ReadFrame =>
    case Publish =>
    case LoseMetadata =>
    case EndAttempt =>
    case Reconnect =>
    case Poll =>
  }

  lemma PublishKeepsCounters(s: Source, fates: seq<Fate>)
    requires Places(s, fates) && Counters(s, fates) && s.at == Holding
    ensures Counters(SourceStep(s, Publish), Entry(s, fates, Publish))
  {
    var settled := Settle(fates, s.latest, Overwritten);
    assert fates[s.nextSequence - 1] == InHand;
    assert s.latest.Some? ==> fates[s.latest.value - 1] == Pending;
    CountSettle(fates, s.latest, Overwritten);
    CountSettle(settled, Some(s.nextSequence), Pending);
  }

  lemma StepKeepsCounters(s: Source, fates: seq<Fate>, e: Event)
    requires Places(s, fates) && Counters(s, fates) && Allowed(s.at, e)
    ensures Counters(SourceStep(s, e), Entry(s, fates, e))
  {
    match e
    case ReadFrame =>
      assert (fates + [InHand])[..|fates|] == fates;
    case EndAttempt =>
    case PrepareAttempt =>
      CountSettle(fates, s.latest, Discarded);
    case LoseMetadata =>
      CountSettle(fates, Some(s.nextSequence), Skipped);
    case Publish =>
      PublishKeepsCounters(s, fates);
    case Reconnect =>
      CountSettle(fates, s.latest, Discarded);
    case Poll =>
      CountSettle(fates, s.latest, Taken);
  }

  lemma {:induction false} BooksBalance(es: seq<Event>)
    ensures Places(Run(es).source, Ledger(es)) && Counters(Run(es).source, Ledger(es))
  {
    if es != [] {
      var (front, e) := (es[..|es| - 1], es[|es| - 1]);
      BooksBalance(front);
      if Allowed(Run(front).source.at, e) {
        StepKeepsPlaces(Run(front).source, Ledger(front), e);
        StepKeepsCounters(Run(front).source, Ledger(front), e);
      }
    }
  }

  // --- What the consumer gets ---

  /** What a step other than a poll leaves alone: the taken numbers, while only
      numbers that were on their way, or new ones, are on their way. */
  ghost predicate Unpolled(fates: seq<Fate>, fates': seq<Fate>) {
    && |fates| <= |fates'|
    && (forall n :: 0 <= n < |fates'| ==> (fates'[n] == Taken <==> n < |fates| && fates[n] == Taken))
    && (forall n :: 0 <= n < |fates| && (fates'[n] == Pending || fates'[n] == InHand) ==>
          fates[n] == Pending || fates[n] == InHand)
  }

  lemma StepIsUnpolled(s: Source, fates: seq<Fate>, e: Event)
    requires Places(s, fates) && Allowed(s.at, e) && e != Poll
    ensures Unpolled(fates, Entry(s, fates, e))
    ensures Places(SourceStep(s, e), Entry(s, fates, e))
  {
    StepKeepsPlaces(s, fates, e);
    assert s.latest.Some? ==> fates[s.latest.value - 1] == Pending;
    assert s.at == Holding ==> fates[s.nextSequence - 1] == InHand;
  }

  lemma {:induction false} ReceivedTransfers(s: State, s': State, fates: seq<Fate>, fates': seq<Fate>, ds: seq<nat>)
    requires Received(s, fates, ds) && Unpolled(fates, fates') && Places(s'.source, fates')
    requires s'.monitor == s.monitor && Count(fates', Taken) == Count(fates, Taken)
    ensures Received(s', fates', ds)
  {
    if s'.source.latest.Some? {
      assert fates'[s'.source.latest.value - 1] == Pending;
    }
  }

  lemma StepKeepsReceived(s: State, fates: seq<Fate>, ds: seq<nat>, e: Event)
    requires Places(s.source, fates) && Received(s, fates, ds) && Allowed(s.source.at, e)
    requires e != Poll
    ensures Received(Step(s, e), Entry(s.source, fates, e), ds)
  {
    StepIsUnpolled(s.source, fates, e);
    TakenKept(s.source, fates, e);
    ReceivedTransfers(s, Step(s, e), fates, Entry(s.source, fates, e), ds);
  }

  lemma {:induction false} TakenKept(s: Source, fates: seq<Fate>, e: Event)
    requires Places(s, fates) && Allowed(s.at, e) && e != Poll
    ensures Count(Entry(s, fates, e), Taken) == Count(fates, Taken)
  {
    match e
    case ReadFrame => assert (fates + [InHand])[..|fates|] == fates;
    case Publish =>
      CountSettle(fates, s.latest, Overwritten);
      CountSettle(Settle(fates, s.latest, Overwritten), Some(s.nextSequence), Pending);
    case LoseMetadata => CountSettle(fates, Some(s.nextSequence), Skipped);
    case EndAttempt =>
    case _ => CountSettle(fates, s.latest, Discarded);
  }

  lemma PollKeepsReceived(s: State, fates: seq<Fate>, ds: seq<nat>)
    requires Places(s.source, fates) && Received(s, fates, ds) && s.source.latest.Some?
    ensures Received(Step(s, Poll), Entry(s.source, fates, Poll), ds + [s.source.latest.value])
  {
    CountSettle(fates, s.source.latest, Taken);
    assert fates[s.source.latest.value - 1] == Pending;
  }

  lemma {:induction false} DeliveriesAreReceived(es: seq<Event>)
    ensures Received(Run(es), Ledger(es), Deliveries(es))
  {
    if es != [] {
      var (front, e) := (es[..|es| - 1], es[|es| - 1]);
      DeliveriesAreReceived(front);
      BooksBalance(front);
      var s := Run(front);
      if e == Poll && s.source.latest.Some? {
        PollKeepsReceived(s, Ledger(front), Deliveries(front));
      } else if e != Poll && Allowed(s.source.at, e) {
        StepKeepsReceived(s, Ledger(front), Deliveries(front), e);
      }
    }
  }

  lemma {:induction false} CountConcat(a: seq<Fate>, b: seq<Fate>, f: Fate)
    ensures Count(a + b, f) == Count(a, f) + Count(b, f)
  {
    if b == [] {
      assert a + b == a;
    } else {
      assert (a + b)[..|a + b| - 1] == a + b[..|b| - 1];
      CountConcat(a, b[..|b| - 1], f);
    }
  }

  lemma {:induction false} CountNone(fates: seq<Fate>, f: Fate)
    requires f !in fates
    ensures Count(fates, f) == 0
  {
    if fates != [] {
      CountNone(fates[..|fates| - 1], f);
    }
  }

  lemma {:induction false} Partition(fates: seq<Fate>)
    ensures |fates| == Count(fates, InHand) + Count(fates, Pending) + Count(fates, Taken) + Losses(fates)
  {
    if fates != [] {
      Partition(fates[..|fates| - 1]);
    }
  }

  /** The numbers from the first to the last delivery. */
  function Span(fates: seq<Fate>, ds: seq<nat>): seq<Fate> {
    if ds != [] && 1 <= ds[0] <= ds[|ds| - 1] <= |fates| then fates[ds[0] - 1..ds[|ds| - 1]] else []
  }

  lemma Sliced(fates: seq<Fate>, lo: nat, hi: nat, f: Fate)
    requires lo <= hi <= |fates|
    ensures Count(fates, f) == Count(fates[..lo], f) + Count(fates[lo..hi], f) + Count(fates[hi..], f)
  {
    assert fates == fates[..lo] + fates[lo..];
    CountConcat(fates[..lo], fates[lo..], f);
    assert fates[lo..] == fates[lo..hi] + fates[hi..];
    CountConcat(fates[lo..hi], fates[hi..], f);
  }

  /** The counted gaps are exactly the frames lost between the first and the last
      delivery, whatever the threads did. */
  lemma {:induction false} GapsAreLosses(es: seq<Event>)
    ensures var m := Run(es).monitor;
            m.gaps == Losses(Span(Ledger(es), Deliveries(es)))
    ensures var (m, ds) := (Run(es).monitor, Deliveries(es));
            ds != [] ==> ds[0] + m.received + m.gaps == ds[|ds| - 1] + 1
  {
    DeliveriesAreReceived(es);
    BooksBalance(es);
    SpanIsLost(Run(es), Ledger(es), Deliveries(es));
  }

  lemma SpanIsLost(s: State, fates: seq<Fate>, ds: seq<nat>)
    requires Places(s.source, fates) && Received(s, fates, ds)
    ensures s.monitor.gaps == Losses(Span(fates, ds))
  {
    if ds != [] {
      var lo, hi := ds[0] - 1, ds[|ds| - 1];
      assert lo < hi;
      Sliced(fates, lo, hi, Taken);
      CountNone(fates[..lo], Taken);
      CountNone(fates[hi..], Taken);
      var span := fates[lo..hi];
      Partition(span);
      CountNone(span, Pending);
      CountNone(span, InHand);
    }
  }

  /** Every complete frame is taken, lost or still on its way. */
  lemma {:induction false} FramesAreConserved(es: seq<Event>)
    ensures var (s, fates) := (Run(es).source, Ledger(es));
            && |fates| == s.nextSequence
            && s.nextSequence == |Deliveries(es)| + Losses(fates) +
                                 (if s.latest.Some? then 1 else 0) + (if s.at == Holding then 1 else 0)
            && s.produced == |Deliveries(es)| + s.overwritten + Count(fates, Discarded) +
                                (if s.latest.Some? then 1 else 0)
  {
    BooksBalance(es);
    DeliveriesAreReceived(es);
    EveryFrameHasAFate(Run(es).source, Ledger(es));
  }

  lemma {:induction false} EveryFrameHasAFate(s: Source, fates: seq<Fate>)
    requires Places(s, fates) && Counters(s, fates)
    ensures |fates| == Count(fates, Taken) + Losses(fates) +
                         (if s.latest.Some? then 1 else 0) + (if s.at == Holding then 1 else 0)
  {
    Partition(fates);
    if s.at == Holding {
      var n := s.nextSequence - 1;
      assert fates[..n] + [fates[n]] == fates;
      CountNone(fates[..n], InHand);
    } else {
      CountNone(fates, InHand);
    }
  }

  /** The figure shown as dropped before processing. */
  function Reported(s: State): nat {
    if s.monitor.gaps >= s.source.overwritten then s.monitor.gaps else s.source.overwritten
  }

  /** The reported drops never exceed the true losses and miss at most one frame
      per restart, plus those that never got their metadata. */
  lemma {:induction false} ReportedIsClose(es: seq<Event>)
    ensures var (s, fates) := (Run(es), Ledger(es));
            Losses(fates) - s.source.restarts - Count(fates, Skipped) <= Reported(s) <= Losses(fates)
    ensures Count(Ledger(es), Skipped) <= Run(es).source.restarts + 1
  {
    BooksBalance(es);
    GapsAreLosses(es);
    var (fates, ds) := (Ledger(es), Deliveries(es));
    if ds != [] {
      DeliveriesAreReceived(es);
      Sliced(fates, ds[0] - 1, ds[|ds| - 1], Overwritten);
      Sliced(fates, ds[0] - 1, ds[|ds| - 1], Discarded);
      Sliced(fates, ds[0] - 1, ds[|ds| - 1], Skipped);
    }
  }

  // --- Frames without metadata ---

  /** The numbers of the complete frames whose capture time never came. */
  function Unpaired(es: seq<Event>): seq<nat> {
    if es == [] then []
    else
      var (front, e) := (es[..|es| - 1], es[|es| - 1]);
      var src := Run(front).source;
      Unpaired(front) + if e == LoseMetadata && Allowed(src.at, e) then [src.nextSequence] else []
  }

  lemma StepSkips(s: Source, fates: seq<Fate>, e: Event)
    requires Places(s, fates) && Allowed(s.at, e)
    ensures var fates' := Entry(s, fates, e);
            forall n :: 0 <= n < |fates'| ==>
              (fates'[n] == Skipped <==>
                 (n < |fates| && fates[n] == Skipped) || (e == LoseMetadata && n == s.nextSequence - 1))
  {
    assert s.latest.Some? ==> fates[s.latest.value - 1] == Pending;
    assert s.at == Holding ==> fates[s.nextSequence - 1] == InHand;
  }

  ghost predicate ListsSkipped(fates: seq<Fate>, unpaired: seq<nat>) {
    && (forall n :: n in unpaired ==> 1 <= n <= |fates|)
    && (forall n :: 0 <= n < |fates| ==> (fates[n] == Skipped <==> n + 1 in unpaired))
  }

  lemma ListGrows(s: Source, fates: seq<Fate>, unpaired: seq<nat>, e: Event)
    requires Places(s, fates) && Allowed(s.at, e) && ListsSkipped(fates, unpaired)
    ensures ListsSkipped(Entry(s, fates, e), unpaired + if e == LoseMetadata then [s.nextSequence] else [])
  {
    StepSkips(s, fates, e);
    StepKeepsPlaces(s, fates, e);
    var (fates', now) := (Entry(s, fates, e), unpaired + if e == LoseMetadata then [s.nextSequence] else []);
    forall n ensures n in now <==> n in unpaired || (e == LoseMetadata && n == s.nextSequence) {
    }
    forall n | 0 <= n < |fates'| ensures fates'[n] == Skipped <==> n + 1 in now {
    }
  }

  lemma {:induction false} UnpairedAreSkipped(es: seq<Event>)
    ensures ListsSkipped(Ledger(es), Unpaired(es))
  {
    if es != [] {
      var (front, e) := (es[..|es| - 1], es[|es| - 1]);
      UnpairedAreSkipped(front);
      BooksBalance(front);
      if Allowed(Run(front).source.at, e) {
        ListGrows(Run(front).source, Ledger(front), Unpaired(front), e);
      } else {
        assert Unpaired(es) == Unpaired(front);
      }
    }
  }

  lemma {:induction false} CountSome(fates: seq<Fate>, f: Fate)
    requires f in fates
    ensures Count(fates, f) > 0
  {
    var n := |fates| - 1;
    if fates[n] != f {
      assert fates == fates[..n] + [fates[n]];
      CountSome(fates[..n], f);
    }
  }

  /** None of the numbers lies between the first and the last delivery. */
  ghost predicate AllBeyond(numbers: seq<nat>, ds: seq<nat>) {
    forall n :: n in numbers ==> ds == [] || n < ds[0] || n > ds[|ds| - 1]
  }

  /** The counted gaps are published frames only, as documented, if and only if no
      frame without metadata was numbered between the first and the last delivery. */
  lemma {:induction false} GapsArePublishedFrames(es: seq<Event>)
    ensures var (ds, span) := (Deliveries(es), Span(Ledger(es), Deliveries(es)));
            Run(es).monitor.gaps == Count(span, Overwritten) + Count(span, Discarded) <==> AllBeyond(Unpaired(es), ds)
  {
    GapsAreLosses(es);
    BooksBalance(es);
    DeliveriesAreReceived(es);
    UnpairedAreSkipped(es);
    SkippedInSpan(Run(es), Ledger(es), Deliveries(es), Unpaired(es));
  }

  lemma SkippedInSpan(s: State, fates: seq<Fate>, ds: seq<nat>, unpaired: seq<nat>)
    requires Received(s, fates, ds)
    requires ListsSkipped(fates, unpaired)
    ensures Count(Span(fates, ds), Skipped) == 0 <==> AllBeyond(unpaired, ds)
  {
    var span := Span(fates, ds);
    if ds != [] {
      assert forall k :: 0 <= k < |span| ==> span[k] == fates[ds[0] - 1 + k];
      forall n | n in unpaired && ds[0] <= n <= ds[|ds| - 1] ensures Skipped in span {
        assert fates[n - 1] == Skipped && span[n - ds[0]] == fates[n - 1];
      }
    }
    if Skipped in span {
      var k :| 0 <= k < |span| && span[k] == Skipped;
      assert fates[ds[0] - 1 + k] == Skipped && ds[0] + k in unpaired;
      CountSome(span, Skipped);
    } else {
      CountNone(span, Skipped);
    }
  }

  // --- When the report misses at most one frame per restart ---

  /** The last thing the worker did to end its attempt was to give up on metadata. */
  predicate EndedUnpaired(es: seq<Event>) {
    es != [] &&
    var (front, e) := (es[..|es| - 1], es[|es| - 1]);
    if e == Poll || !Allowed(Run(front).source.at, e) then EndedUnpaired(front) else e == LoseMetadata
  }

  /** Restarts by what they cost beyond one frame: `doubles` lost a frame without
      metadata and the waiting one, `cleans` lost neither. */
  datatype Tally = Tally(doubles: nat, cleans: nat)

  function Restarts(es: seq<Event>): Tally {
    if es == [] then Tally(0, 0)
    else
      var (front, e) := (es[..|es| - 1], es[|es| - 1]);
      var (t, src) := (Restarts(front), Run(front).source);
      if e != Reconnect || !Allowed(src.at, e) then t
      else if EndedUnpaired(front) && src.latest.Some? then t.(doubles := t.doubles + 1)
      else if !EndedUnpaired(front) && src.latest.None? then t.(cleans := t.cleans + 1)
      else t
  }

  /** The attempt has given up on metadata and the source has not restarted yet. */
  predicate GivenUp(es: seq<Event>) { Run(es).source.at == Ended && EndedUnpaired(es) }

  lemma {:induction false} StepCosts(s: Source, fates: seq<Fate>, e: Event)
    requires Places(s, fates) && Allowed(s.at, e)
    ensures var fates' := Entry(s, fates, e);
            Count(fates', Discarded) + Count(fates', Skipped) ==
            Count(fates, Discarded) + Count(fates, Skipped) +
            (if e == LoseMetadata || (e == Reconnect && s.latest.Some?) then 1 else 0)
  {
    assert s.latest.Some? ==> fates[s.latest.value - 1] == Pending;
    match e
    case ReadFrame => assert (fates + [InHand])[..|fates|] == fates;
    case Publish =>
      CountSettle(fates, s.latest, Overwritten);
      CountSettle(Settle(fates, s.latest, Overwritten), Some(s.nextSequence), Pending);
      assert fates[s.nextSequence - 1] == InHand;
    case LoseMetadata =>
      CountSettle(fates, Some(s.nextSequence), Skipped);
      assert fates[s.nextSequence - 1] == InHand;
    case EndAttempt =>
    case Poll => CountSettle(fates, s.latest, Taken);
    case _ => CountSettle(fates, s.latest, Discarded);
  }

  lemma {:induction false} RestartsAreTallied(es: seq<Event>)
    ensures var (s, fates, t) := (Run(es).source, Ledger(es), Restarts(es));
            Count(fates, Discarded) + Count(fates, Skipped) - s.restarts ==
            t.doubles - t.cleans + if GivenUp(es) then 1 else 0
  {
    if es != [] {
      var (front, e) := (es[..|es| - 1], es[|es| - 1]);
      RestartsAreTallied(front);
      BooksBalance(front);
      if Allowed(Run(front).source.at, e) {
        StepCosts(Run(front).source, Ledger(front), e);
      }
    }
  }

  /** The numbers before the first and after the last delivery that are not on their way. */
  function Unseen(es: seq<Event>): int {
    var (s, ds) := (Run(es).source, Deliveries(es));
    (if ds == [] then s.nextSequence else ds[0] - 1 + s.nextSequence - ds[|ds| - 1]) -
    (if s.latest.Some? then 1 else 0) - (if s.at == Holding then 1 else 0)
  }

  lemma {:induction false} GapsMissTheUnseen(es: seq<Event>)
    ensures Run(es).monitor.gaps == Losses(Ledger(es)) - Unseen(es)
  {
    FramesAreConserved(es);
    GapsAreLosses(es);
    DeliveriesAreReceived(es);
  }

  /** The report misses at most one frame per restart if and only if restarts that
      lost nothing make up for those that lost two frames, or no more frames than
      restarts were lost before the first and after the last delivery. */
  lemma {:induction false} ReportedBoundExactly(es: seq<Event>)
    ensures var (s, t) := (Run(es), Restarts(es));
            Losses(Ledger(es)) - s.source.restarts <= Reported(s) <==>
            (t.doubles + (if GivenUp(es) then 1 else 0) <= t.cleans || Unseen(es) <= s.source.restarts)
  {
    BooksBalance(es);
    RestartsAreTallied(es);
    GapsMissTheUnseen(es);
  }

  lemma {:induction false} NoDoubles(es: seq<Event>)
    requires LoseMetadata !in es
    ensures !EndedUnpaired(es) && Restarts(es).doubles == 0
  {
    if es != [] {
      NoDoubles(es[..|es| - 1]);
    }
  }

  /** A source without metadata (GStreamer) always meets the bound. */
  lemma {:induction false} ReportedIsCloseWithoutMetadata(es: seq<Event>)
    requires LoseMetadata !in es
    ensures var (s, fates) := (Run(es), Ledger(es));
            Losses(fates) - s.source.restarts <= Reported(s) <= Losses(fates)
  {
    NoDoubles(es);
    ReportedBoundExactly(es);
    ReportedIsClose(es);
  }

  /** A source with metadata need not: here two frames are lost in one restart, the
      waiting one and the one that never got its metadata, and none is reported. */
  lemma TwoLossesInOneRestart()
    ensures var es := [PrepareAttempt, ReadFrame, Publish, ReadFrame, LoseMetadata, Reconnect];
            Losses(Ledger(es)) == 2 && Run(es).source.restarts == 1 && Reported(Run(es)) == 0
  {
    var es := [PrepareAttempt, ReadFrame, Publish, ReadFrame, LoseMetadata, Reconnect];
    RunSnoc([], PrepareAttempt);
    RunSnoc(es[..1], ReadFrame);
    RunSnoc(es[..2], Publish);
    RunSnoc(es[..3], ReadFrame);
    RunSnoc(es[..4], LoseMetadata);
    RunSnoc(es[..5], Reconnect);
    assert [] + [PrepareAttempt] == es[..1] && es[..1] + [ReadFrame] == es[..2] && es[..2] + [Publish] == es[..3];
    assert es[..3] + [ReadFrame] == es[..4] && es[..4] + [LoseMetadata] == es[..5] && es[..5] + [Reconnect] == es;
    NothingDelivered(es);
    FramesAreConserved(es);
  }

  lemma {:induction false} NothingDelivered(es: seq<Event>)
    requires Poll !in es
    ensures Deliveries(es) == []
  {
    if es != [] {
      NothingDelivered(es[..|es| - 1]);
    }
  }

  lemma RunSnoc(es: seq<Event>, e: Event)
    ensures Run(es + [e]) == Step(Run(es), e)
  {
    assert (es + [e])[..|es|] == es;
  }

  /** A complete frame without metadata takes a number with it: whenever a source
      that has delivered everything meets one, the next attempt shows one more
      dropped frame, although every published frame was delivered. */
  lemma {:induction false} UnpairedFrameCountsAsDropped(es: seq<Event>)
    requires var s := Run(es);
             s.source.at == Reading && s.source.latest.None? && s.monitor.last == Some(s.source.nextSequence)
    ensures var (s, s') := (Run(es),
                            Run(es + [ReadFrame, LoseMetadata, Reconnect, PrepareAttempt, ReadFrame, Publish, Poll]));
            && s'.monitor.gaps == s.monitor.gaps + 1
            && s'.source.produced - s.source.produced == s'.monitor.received - s.monitor.received == 1
            && s'.source.overwritten == s.source.overwritten
  {
    var failed := es + [ReadFrame] + [LoseMetadata] + [Reconnect];
    RunSnoc(es, ReadFrame);
    RunSnoc(es + [ReadFrame], LoseMetadata);
    RunSnoc(es + [ReadFrame] + [LoseMetadata], Reconnect);
    RunSnoc(failed, PrepareAttempt);
    RunSnoc(failed + [PrepareAttempt], ReadFrame);
    RunSnoc(failed + [PrepareAttempt] + [ReadFrame], Publish);
    RunSnoc(failed + [PrepareAttempt] + [ReadFrame] + [Publish], Poll);
    assert failed + [PrepareAttempt] + [ReadFrame] + [Publish] + [Poll] ==
           es + [ReadFrame, LoseMetadata, Reconnect, PrepareAttempt, ReadFrame, Publish, Poll];
  }

  // --- The components ---

  class CameraSource {
    ghost var at: Location
    var latestFrame: Option<nat>
    var nextSequence: nat
    var producedFrames: nat
    var overwrittenFrames: nat
    var restartCount: nat

    ghost function View(): Source
      reads this
    {
      Source(at, latestFrame, nextSequence, producedFrames, overwrittenFrames, restartCount)
    }

    constructor ()
      ensures View() == INITIAL.source
    {
      at := Between;
      latestFrame, nextSequence, producedFrames, overwrittenFrames, restartCount := None, 0, 0, 0, 0;
    }

    method Prepare()
      requires at == Between
      modifies this
      ensures View() == SourceStep(old(View()), PrepareAttempt)
    {
      latestFrame := None;
      at := Reading;
    }

    /** A complete frame has been read; it gets the next number. */
    method NextFrame() returns (sequence: nat)
      requires at == Reading
      modifies this
      ensures View() == SourceStep(old(View()), ReadFrame) && sequence == nextSequence
    {
      nextSequence := nextSequence + 1;
      sequence := nextSequence;
      at := Holding;
    }

    method PublishFrame(frame: nat)
      requires at == Holding && frame == nextSequence
      modifies this
      ensures View() == SourceStep(old(View()), Publish)
    {
      if latestFrame.Some? {
        overwrittenFrames := overwrittenFrames + 1;
      }
      latestFrame := Some(frame);
      producedFrames := producedFrames + 1;
      at := Reading;
    }

    /** The attempt ends, without publishing the frame in hand if there is one. */
    ghost method End()
      requires at == Reading || at == Holding
      modifies this`at
      ensures View() == SourceStep(old(View()), if old(at) == Holding then LoseMetadata else EndAttempt)
    {
      at := Ended;
    }

    method SetReconnecting()
      requires at == Ended
      modifies this
      ensures View() == SourceStep(old(View()), Reconnect)
    {
      latestFrame := None;
      restartCount := restartCount + 1;
      at := Between;
    }

    method TakeLatestFrame() returns (frame: Option<nat>)
      modifies this
      ensures View() == SourceStep(old(View()), Poll) && frame == old(latestFrame)
    {
      frame := latestFrame;
      latestFrame := None;
    }
  }

  class CameraMonitor {
    const source: CameraSource
    var lastSequence: Option<nat>
    var receivedFrames: nat
    var droppedBeforeProcessing: nat

    ghost function View(): State
      reads this, source
    {
      State(source.View(), Monitor(lastSequence, receivedFrames, droppedBeforeProcessing))
    }

    constructor (source: CameraSource)
      ensures this.source == source && View() == State(source.View(), INITIAL.monitor)
    {
      this.source := source;
      lastSequence, receivedFrames, droppedBeforeProcessing := None, 0, 0;
    }

    method PollOnce() returns (frame: Option<nat>)
      modifies this, source
      ensures View() == Step(old(View()), Poll) && frame == old(source.latestFrame)
    {
      frame := source.TakeLatestFrame();
      if frame.None? {
        return;
      }
      if lastSequence.Some? && frame.value > lastSequence.value + 1 {
        droppedBeforeProcessing := droppedBeforeProcessing + (frame.value - lastSequence.value - 1);
      }
      lastSequence := frame;
      receivedFrames := receivedFrames + 1;
    }

    method DroppedFrames() returns (dropped: nat)
      ensures dropped == Reported(View())
    {
      dropped := if droppedBeforeProcessing >= source.overwrittenFrames then droppedBeforeProcessing
      else source.overwrittenFrames;
    }
  }
}
