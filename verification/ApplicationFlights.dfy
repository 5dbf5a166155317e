/** When the application asks for LAND, how fast it streams guidance and when a
    landing is over: the runtime's histories inside every run. */
module ApplicationFlights {
  import opened FlightTypes
  import opened Application
  import A = Autonomy
  import Guidance
  import H = AutonomyHistory
  import R = ApplicationRuns
  import opened ApplicationTiming

  // --- The runtime's turn in a poll ---

  ghost function Polled(o: Options, l: Logs, p: PollInput): Logs {
    var heard := Received(o, l, p);
    StartupPolled(Monitored(heard, p.now), VehicleAt(heard, p.now), p)
  }

  /** What the runtime has been told when its turn comes, and what it is told then. */
  ghost function TurnIn(o: Options, l: Logs, p: PollInput): A.Event {
    A.Poll(RuntimeInput(o, Polled(o, l, p), R.SeenIn(o, l, p), p.now), p.writes.target, p.writes.land)
  }

  ghost function Before(o: Options, h: seq<Event>): seq<A.Event>
    requires h != [] && h[|h| - 1].Poll?
  {
    Polled(o, LogsOf(o, h[..|h| - 1]), h[|h| - 1].input).runtime
  }

  ghost function Turn(o: Options, h: seq<Event>): A.Event
    requires h != [] && h[|h| - 1].Poll?
  {
    TurnIn(o, LogsOf(o, h[..|h| - 1]), h[|h| - 1].input)
  }

  lemma RuntimeTurn(o: Options, l: Logs, p: PollInput)
    ensures PollLogs(o, l, p).runtime == Polled(o, l, p).runtime + [TurnIn(o, l, p)]
    ensures SentBy(o, l, p).actions == A.Emitted(o.runtime, A.Run(o.runtime, Polled(o, l, p).runtime), TurnIn(o, l, p))
  {
  }

  lemma {:induction false} RuntimeIsTimely(o: Options, h: seq<Event>)
    requires Clock(h)
    ensures A.Monotone(LogsOf(o, h).runtime)
  {
    LogsAreTimely(o, h, if h == [] then 0 else TimeOf(h[|h| - 1]));
  }

  lemma {:induction false} TurnIsTimely(o: Options, h: seq<Event>)
    requires Clock(h) && h != [] && h[|h| - 1].Poll?
    ensures LogsOf(o, h).runtime == Before(o, h) + [Turn(o, h)] && A.Monotone(Before(o, h) + [Turn(o, h)])
    ensures R.SentAt(o, h).actions == A.Emitted(o.runtime, A.Run(o.runtime, Before(o, h)), Turn(o, h))
  {
    RuntimeTurn(o, LogsOf(o, h[..|h| - 1]), h[|h| - 1].input);
    RuntimeIsTimely(o, h);
  }

  // --- LAND ---

  /** In every run a poll sends LAND if and only if its look is supervised and the
      last one of steady looks, no LAND is within its acknowledgement deadline and
      fewer than three were sent. */
  lemma {:induction false} LandsExactlyWhenSteady(o: Options, h: seq<Event>)
    requires Clock(h) && o.runtime.landAfterLoss > 0 && h != [] && h[|h| - 1].Poll?
    ensures var s := A.Run(o.runtime, Before(o, h));
            R.SentAt(o, h).actions.land.Some? <==>
            && A.Supervisable(s, Turn(o, h).input) && s.phase != A.Landing
            && H.Steady(o.runtime, H.Looks(o.runtime, LogsOf(o, h).runtime))
            && H.MayAttempt(s, h[|h| - 1].input.now)
  {
    TurnIsTimely(o, h);
    H.LandExactlyWhenSteady(o.runtime, Before(o, h), Turn(o, h));
  }

  lemma {:induction false} MessagesAreNoPolls(l: Logs, ms: seq<Message>, now: Time)
    ensures H.LastPoll(OnMessages(l, ms, now).runtime) == H.LastPoll(l.runtime)
  {
    if ms != [] {
      var before := OnMessages(l, ms[..|ms| - 1], now);
      MessagesAreNoPolls(l, ms[..|ms| - 1], now);
      R.MessageAddsOneAck(before, ms[|ms| - 1], now);
      LastPollSnoc(before.runtime, OnMessages(l, ms, now).runtime);
    }
  }

  lemma {:induction false} LastPollSnoc(es: seq<A.Event>, es': seq<A.Event>)
    requires es' == es || (|es'| == |es| + 1 && es' == es + [es'[|es|]])
    ensures H.LastPoll(es') == if es' != es && es'[|es|].Poll? then Some(A.At(es'[|es|])) else H.LastPoll(es)
  {
    if es' != es {
      assert es'[..|es'| - 1] == es;
    }
  }

  lemma {:induction false} RuntimeIsPolled(o: Options, h: seq<Event>)
    ensures H.LastPoll(LogsOf(o, h).runtime) == LastPoll(h)
  {
    if h != [] {
      var (front, e) := (h[..|h| - 1], h[|h| - 1]);
      RuntimeIsPolled(o, front);
      if e.Poll? {
        RuntimeTurn(o, LogsOf(o, front), e.input);
        LastPollSnoc(Before(o, h), LogsOf(o, h).runtime);
      } else {
        LastPollSnoc(LogsOf(o, front).runtime, LogsOf(o, h).runtime);
      }
    }
  }

  /** At any time at most delta after the last poll, LAND has been requested or the
      runtime is no longer active, from max(1 s, loss timeout) + delta after the
      last change of verdict on. */
  lemma {:induction false} LandRequestedInTime(o: Options, h: seq<Event>, now: Time, delta: Time)
    requires Clock(h) && o.runtime.landAfterLoss > 0 && R.RuntimePhase(o, LogsOf(o, h)) == A.Active
    requires LastPoll(h).Some? && now <= LastPoll(h).value + delta
    requires var looks := H.Looks(o.runtime, LogsOf(o, h).runtime);
             looks != [] &&
             now >= looks[H.StreakStart(looks)].at + H.Longest(1_000_000_000, o.runtime.landAfterLoss) + delta
    ensures A.Trace(o.runtime, LogsOf(o, h).runtime) != []
  {
    RuntimeIsTimely(o, h);
    RuntimeIsPolled(o, h);
    H.LandRequestedInTime(o.runtime, LogsOf(o, h).runtime, now, delta);
  }

  /** In every run a poll 90 s or more after LAND was accepted leaves the flight completed or failed. */
  lemma {:induction false} LandingEndsInTime(o: Options, h: seq<Event>)
    requires h != [] && h[|h| - 1].Poll?
    requires var accepted := H.LandAcceptedAt(o.runtime, LogsOf(o, h).runtime);
             accepted.Some? && TimeOf(h[|h| - 1]) >= accepted.value + 90_000_000_000
    ensures R.RuntimePhase(o, LogsOf(o, h)) in {A.Completed, A.Failed}
  {
    RuntimeTurn(o, LogsOf(o, h[..|h| - 1]), h[|h| - 1].input);
    H.LandingTerminates(o.runtime, LogsOf(o, h).runtime);
  }

  // --- Guidance ---

  /** In every run an approved look sends LANDING_TARGET if and only if none went
      out in the last 200 ms of its streak. */
  lemma TargetsExactlyAtInterval(o: Options, h: seq<Event>)
    requires Clock(h) && h != [] && h[|h| - 1].Poll?
    requires A.Supervisable(A.Run(o.runtime, Before(o, h)), Turn(o, h).input)
             && Guidance.Approved(Turn(o, h).input.target)
    ensures var sent := H.StreakTargets(o.runtime, Before(o, h));
            R.SentAt(o, h).actions.target.Some? <==>
            sent == [] || h[|h| - 1].input.now >= sent[|sent| - 1] + 200_000_000
  {
    TurnIsTimely(o, h);
    H.TargetsExactlyAtInterval(o.runtime, Before(o, h), Turn(o, h));
  }

  /** From position m on every supervised look was approved and no start request was granted. */
  ghost predicate Approaching(o: Options, h: seq<Event>, m: nat) {
    |h| > m ==>
      var (front, e) := (h[..|h| - 1], h[|h| - 1]);
      && Approaching(o, front, m)
      && (e.Start? ==> !MayStart(o, LogsOf(o, front), e.at))
      && (e.Poll? && A.Supervisable(A.Run(o.runtime, Before(o, h)), Turn(o, h).input) ==>
            Guidance.Approved(Turn(o, h).input.target))
  }

  /** The polls from position m on that sent LANDING_TARGET. */
  ghost function TargetsSent(o: Options, h: seq<Event>, m: nat): seq<Time> {
    if |h| <= m then []
    else
      var (front, e) := (h[..|h| - 1], h[|h| - 1]);
      TargetsSent(o, front, m) + if e.Poll? && R.SentAt(o, h).actions.target.Some? then [TimeOf(e)] else []
  }

  ghost predicate SameGuidance(cfg: A.Config, es: seq<A.Event>, m: nat, sent: seq<Time>) {
    m <= |es| && H.Unbroken(cfg, es, m) && H.TargetsFrom(cfg, es, m) == sent
  }

  lemma AckIsNoGuidance(cfg: A.Config, es: seq<A.Event>, es': seq<A.Event>, m: nat, sent: seq<Time>)
    requires SameGuidance(cfg, es, m, sent)
    requires es' == es || (|es'| == |es| + 1 && es' == es + [es'[|es|]] && es'[|es|].Ack?)
    ensures SameGuidance(cfg, es', m, sent)
  {
    if es' != es {
      assert es'[..|es'| - 1] == es;
    }
  }

  lemma {:induction false} MessagesAreNoGuidance(o: Options, l: Logs, ms: seq<Message>,
                                      now: Time, m: nat, sent: seq<Time>)
    requires SameGuidance(o.runtime, l.runtime, m, sent)
    ensures SameGuidance(o.runtime, OnMessages(l, ms, now).runtime, m, sent)
  {
    if ms != [] {
      var before := OnMessages(l, ms[..|ms| - 1], now);
      MessagesAreNoGuidance(o, l, ms[..|ms| - 1], now, m, sent);
      R.MessageAddsOneAck(before, ms[|ms| - 1], now);
      AckIsNoGuidance(o.runtime, before.runtime, OnMessages(l, ms, now).runtime, m, sent);
    }
  }

  lemma {:induction false} TurnGuides(cfg: A.Config, es: seq<A.Event>, e: A.Event, m: nat, sent: seq<Time>)
    requires SameGuidance(cfg, es, m, sent) && e.Poll?
    requires A.Supervisable(A.Run(cfg, es), e.input) ==> Guidance.Approved(e.input.target)
    ensures SameGuidance(cfg, es + [e], m,
                         sent + if A.Emitted(cfg, A.Run(cfg, es), e).target.Some? then [A.At(e)] else [])
  {
    assert (es + [e])[..|es|] == es;
  }

  lemma {:induction false} GuidanceIsSame(o: Options, h: seq<Event>, m: nat)
    requires m <= |h| && Approaching(o, h, m)
    ensures SameGuidance(o.runtime, LogsOf(o, h).runtime, |LogsOf(o, h[..m]).runtime|, TargetsSent(o, h, m))
  {
    if m == |h| {
      assert h[..m] == h;
    } else {
      var (front, e) := (h[..|h| - 1], h[|h| - 1]);
      assert front[..m] == h[..m];
      GuidanceIsSame(o, front, m);
      var (n, sent) := (|LogsOf(o, h[..m]).runtime|, TargetsSent(o, front, m));
      if e.Poll? {
        var l := LogsOf(o, front);
        MessagesAreNoGuidance(o, OnFrame(o, l, e.input), e.input.messages, e.input.now, n, sent);
        RuntimeTurn(o, l, e.input);
        TurnGuides(o.runtime, Before(o, h), Turn(o, h), n, sent);
      }
    }
  }

  /** In every run, over any stretch in which no supervised look was disapproved and
      no flight started over, any window of length w holds at most w / 200 ms + 1
      LANDING_TARGETs. */
  lemma GuidanceRate(o: Options, h: seq<Event>, m: nat, a: Time, w: Time)
    requires Clock(h) && m <= |h| && Approaching(o, h, m) && w >= 0
    ensures H.InWindow(TargetsSent(o, h, m), a, a + w) <= w / 200_000_000 + 1
  {
    RuntimeIsTimely(o, h);
    GuidanceIsSame(o, h, m);
    H.TargetRate(o.runtime, LogsOf(o, h).runtime, |LogsOf(o, h[..m]).runtime|, a, w);
  }
}
