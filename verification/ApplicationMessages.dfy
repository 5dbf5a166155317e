/** From messages to machines: which acknowledgement reaches which command, by the
    numbers of the protocol, and that nothing else is told and nothing is lost. */
module ApplicationMessages {
  import opened FlightTypes
  import opened Application
  import A = Autonomy
  import ApplicationTiming
  import F = LinkFailsafe
  import H = AutonomyHistory
  import K = Tracking
  import R = ApplicationRuns
  import RT = RuntimeTable
  import S = FlightStartup
  import ST = StartupTable
  import T = TelemetryStreams
  import TT = StreamTable
  import V = VehicleStates

  predicate ToCompanion(targetComponent: Byte) { targetComponent == 0 || targetComponent == 191 }

  // --- What a message tells each component ---

  function ActionOf(number: int): Option<FlightAction> {
    if number == 176 then Some(SetGuidedMode)
    else if number == 400 then Some(Arm)
    else if number == 22 then Some(Takeoff)
    else if number == 21 then Some(Land)
    else if number == 20 then Some(ReturnToLaunch)
    else None
  }

  function OutcomeIn(result: Byte): AckOutcome {
    if result == 0 then Accepted else if result == 5 then InProgress else Rejected
  }

  function VerdictIn(result: Byte): T.Verdict {
    if result == 0 then T.Done else if result == 5 then T.StillBusy else T.Refused(result)
  }

  /** What a message tells the flight machines. */
  function FlightAck(m: Message, now: Time): seq<S.Event> {
    if m.CommandAck? && ToCompanion(m.targetComponent) && ActionOf(m.command).Some?
    then [S.Ack(ActionOf(m.command).value, OutcomeIn(m.result), m.result, m.source, now)] else []
  }

  function StreamAnswer(m: Message, now: Time): seq<T.Event> {
    if m.CommandAck? && m.command == 511
    then [T.Ack(T.StreamAck(m.source, m.targetSystem, m.targetComponent, VerdictIn(m.result)), now)] else []
  }

  function Report(m: Message, now: Time): seq<V.Event> {
    if m.Telemetry? && !m.event.Look? then [m.event.(at := now)] else []
  }

  function Value(m: Message, now: Time): seq<F.Event> {
    if m.Parameter? then [F.Param(m.system, m.comp, m.id, m.value)] else []
  }

  function RuntimeAck(m: Message, now: Time): seq<A.Event> {
    if m.CommandAck? && ToCompanion(m.targetComponent) && ActionOf(m.command).Some?
    then [A.Ack(ActionOf(m.command).value, OutcomeIn(m.result), m.result, m.source, now)] else []
  }

  lemma MessageTells(l: Logs, m: Message, now: Time)
    ensures var l' := OnMessage(l, m, now);
            && l'.vehicle == l.vehicle + Report(m, now) && l'.failsafe == l.failsafe + Value(m, now)
            && l'.streams == l.streams + StreamAnswer(m, now) && l'.startup == l.startup + FlightAck(m, now)
            && l'.runtime == l.runtime + RuntimeAck(m, now) && l'.frames == l.frames
  {
  }

  // --- Which answer decides which command ---

  lemma StartupAnswer(s: S.Startup, command: int, result: Byte, source: Byte, now: Time)
    ensures var a := ActionOf(command);
            var s' := if a.Some? then S.OnAck(s, a.value, OutcomeIn(result), result, source, now) else s;
            if ST.Awaited(s, command, source) then ST.AckDecides(s, result, now, s') else s' == s
  {
  }

  /** An acknowledgement decides the startup's command exactly if it carries the
      number of the awaited command, from the pinned system, for the companion. */
  lemma StartupHears(o: Options, l: Logs, m: Message, now: Time)
    requires m.CommandAck?
    ensures var (s, s') := (S.Run(o.startup, l.startup), S.Run(o.startup, OnMessage(l, m, now).startup));
            if ST.Awaited(s, m.command, m.source) && ToCompanion(m.targetComponent)
            then ST.AckDecides(s, m.result, now, s') else s' == s
  {
    MessageTells(l, m, now);
    StartupAnswer(S.Run(o.startup, l.startup), m.command, m.result, m.source, now);
    if FlightAck(m, now) != [] {
      StartupSnoc(o.startup, l.startup, FlightAck(m, now)[0]);
    }
  }

  lemma RuntimeAnswer(s: A.Runtime, command: int, result: Byte, source: Byte, now: Time)
    ensures var a := ActionOf(command);
            var s' := if a.Some? then A.OnAck(s, a.value, OutcomeIn(result), result, source, now) else s;
            if RT.Awaited(s, command, source) then RT.AckDecides(s, result, now, s') else s' == s
  {
  }

  /** The same of LAND, whose number is 21. */
  lemma RuntimeHears(o: Options, l: Logs, m: Message, now: Time)
    requires m.CommandAck?
    ensures var (s, s') := (A.Run(o.runtime, l.runtime), A.Run(o.runtime, OnMessage(l, m, now).runtime));
            if RT.Awaited(s, m.command, m.source) && ToCompanion(m.targetComponent)
            then RT.AckDecides(s, m.result, now, s') else s' == s
  {
    MessageTells(l, m, now);
    RuntimeAnswer(A.Run(o.runtime, l.runtime), m.command, m.result, m.source, now);
    if RuntimeAck(m, now) != [] {
      RuntimeSnoc(o.runtime, l.runtime, RuntimeAck(m, now)[0]);
    }
  }

  lemma StreamAnswered(s: T.Setup, source: Byte, targetSystem: Byte, targetComponent: Byte, result: Byte, now: Time)
    requires T.Consistent(s)
    ensures var s' := T.OnAck(s, T.StreamAck(source, targetSystem, targetComponent, VerdictIn(result)), now);
            if TT.Awaited(s, source, targetSystem, targetComponent) then TT.AckDecides(s, result, now, s') else s' == s
  {
  }

  /** And of the interval requests, whose number is 511. */
  lemma StreamsHear(l: Logs, m: Message, now: Time)
    requires m.CommandAck?
    ensures var (s, s') := (T.Run(l.streams), T.Run(OnMessage(l, m, now).streams));
            if m.command == 511 && TT.Awaited(s, m.source, m.targetSystem, m.targetComponent)
            then TT.AckDecides(s, m.result, now, s') else s' == s
  {
    MessageTells(l, m, now);
    StreamAnswered(T.Run(l.streams), m.source, m.targetSystem, m.targetComponent, m.result, now);
    if StreamAnswer(m, now) != [] {
      StreamsSnoc(l.streams, StreamAnswer(m, now)[0]);
    }
  }

  // --- In a run nothing is lost and nothing is added ---

  function OfMessages<E>(ms: seq<Message>, now: Time, f: (Message, Time) -> seq<E>): seq<E> {
    if ms == [] then [] else OfMessages(ms[..|ms| - 1], now, f) + f(ms[|ms| - 1], now)
  }

  /** What all messages of a run tell, in the order they were read. */
  function OfRun<E>(h: seq<Event>, f: (Message, Time) -> seq<E>): seq<E> {
    if h == [] then []
    else
      var (front, e) := (h[..|h| - 1], h[|h| - 1]);
      OfRun(front, f) + if e.Poll? then OfMessages(e.input.messages, e.input.now, f) else []
  }

  function Params(es: seq<F.Event>): seq<F.Event> {
    if es == [] then [] else Params(es[..|es| - 1]) + if es[|es| - 1].Param? then [es[|es| - 1]] else []
  }

  function StartupAcks(es: seq<S.Event>): seq<S.Event> {
    if es == [] then [] else StartupAcks(es[..|es| - 1]) + if es[|es| - 1].Ack? then [es[|es| - 1]] else []
  }

  function RuntimeAcks(es: seq<A.Event>): seq<A.Event> {
    if es == [] then [] else RuntimeAcks(es[..|es| - 1]) + if es[|es| - 1].Ack? then [es[|es| - 1]] else []
  }

  function StreamAcks(es: seq<T.Event>): seq<T.Event> {
    if es == [] then [] else StreamAcks(es[..|es| - 1]) + if es[|es| - 1].Ack? then [es[|es| - 1]] else []
  }

  /** The camera frames of the polls, if there is vision. */
  function FramesOf(o: Options, h: seq<Event>): seq<K.Frame> {
    if h == [] then []
    else
      var (front, e) := (h[..|h| - 1], h[|h| - 1]);
      FramesOf(o, front) +
      if e.Poll? && o.vision && e.input.frame.Some? then [K.Frame(e.input.frame.value, e.input.cameraNow)] else []
  }

  /** What the components have been told by messages. */
  datatype Told = Told(
    vehicle: seq<V.Event>,
    failsafe: seq<F.Event>,
    streams: seq<T.Event>,
    startup: seq<S.Event>,
    runtime: seq<A.Event>)

  function ToldIn(l: Logs): Told {
    Told(V.Reports(l.vehicle), Params(l.failsafe), StreamAcks(l.streams), StartupAcks(l.startup),
         RuntimeAcks(l.runtime))
  }

  function Plus(a: Told, b: Told): Told {
    Told(a.vehicle + b.vehicle, a.failsafe + b.failsafe, a.streams + b.streams, a.startup + b.startup,
         a.runtime + b.runtime)
  }

  function ByMessage(m: Message, now: Time): Told {
    Told(Report(m, now), Value(m, now), StreamAnswer(m, now), FlightAck(m, now), RuntimeAck(m, now))
  }

  function ByMessages(ms: seq<Message>, now: Time): Told {
    Told(OfMessages(ms, now, Report), OfMessages(ms, now, Value), OfMessages(ms, now, StreamAnswer),
         OfMessages(ms, now, FlightAck), OfMessages(ms, now, RuntimeAck))
  }

  function ByRun(h: seq<Event>): Told {
    Told(OfRun(h, Report), OfRun(h, Value), OfRun(h, StreamAnswer), OfRun(h, FlightAck), OfRun(h, RuntimeAck))
  }

  lemma {:induction false} ReportsSnoc(es: seq<V.Event>, e: V.Event)
    ensures V.Reports(es + [e]) == V.Reports(es) + (if e.Look? then [] else [e])
  {
    assert (es + [e])[..|es|] == es;
  }

  lemma {:induction false} ParamsSnoc(es: seq<F.Event>, e: F.Event)
    ensures Params(es + [e]) == Params(es) + (if e.Param? then [e] else [])
  {
    assert (es + [e])[..|es|] == es;
  }

  lemma {:induction false} StreamAcksSnoc(es: seq<T.Event>, e: T.Event)
    ensures StreamAcks(es + [e]) == StreamAcks(es) + (if e.Ack? then [e] else [])
  {
    assert (es + [e])[..|es|] == es;
  }

  lemma {:induction false} StartupAcksSnoc(es: seq<S.Event>, e: S.Event)
    ensures StartupAcks(es + [e]) == StartupAcks(es) + (if e.Ack? then [e] else [])
  {
    assert (es + [e])[..|es|] == es;
  }

  lemma {:induction false} RuntimeAcksSnoc(es: seq<A.Event>, e: A.Event)
    ensures RuntimeAcks(es + [e]) == RuntimeAcks(es) + (if e.Ack? then [e] else [])
  {
    assert (es + [e])[..|es|] == es;
  }

  lemma MessageAdds(l: Logs, m: Message, now: Time)
    ensures ToldIn(OnMessage(l, m, now)) ==
            Plus(ToldIn(l), ByMessage(m, now))
    ensures OnMessage(l, m, now).frames == l.frames
  {
    MessageTells(l, m, now);
    InputsAdd(l, m, now);
    AnswersAdd(l, m, now);
  }

  lemma InputsAdd(l: Logs, m: Message, now: Time)
    ensures V.Reports(l.vehicle + Report(m, now)) == V.Reports(l.vehicle) + Report(m, now)
    ensures Params(l.failsafe + Value(m, now)) == Params(l.failsafe) + Value(m, now)
  {
    if Report(m, now) != [] { ReportsSnoc(l.vehicle, Report(m, now)[0]); }
    if Value(m, now) != [] { ParamsSnoc(l.failsafe, Value(m, now)[0]); }
    assert l.vehicle + [] == l.vehicle && l.failsafe + [] == l.failsafe;
  }

  lemma AnswersAdd(l: Logs, m: Message, now: Time)
    ensures StreamAcks(l.streams + StreamAnswer(m, now)) == StreamAcks(l.streams) + StreamAnswer(m, now)
    ensures StartupAcks(l.startup + FlightAck(m, now)) == StartupAcks(l.startup) + FlightAck(m, now)
    ensures RuntimeAcks(l.runtime + RuntimeAck(m, now)) == RuntimeAcks(l.runtime) + RuntimeAck(m, now)
  {
    if StreamAnswer(m, now) != [] { StreamAcksSnoc(l.streams, StreamAnswer(m, now)[0]); }
    if FlightAck(m, now) != [] {
      StartupAcksSnoc(l.startup, FlightAck(m, now)[0]);
      RuntimeAcksSnoc(l.runtime, RuntimeAck(m, now)[0]);
    }
    assert l.streams + [] == l.streams && l.startup + [] == l.startup && l.runtime + [] == l.runtime;
  }

  const NOTHING_TOLD := Told([], [], [], [], [])

  lemma PlusNothing(t: Told)
    ensures Plus(t, NOTHING_TOLD) == t
  {
  }

  lemma PlusAssociates(a: Told, b: Told, c: Told)
    ensures Plus(Plus(a, b), c) == Plus(a, Plus(b, c))
  {
  }

  lemma {:induction false} MessagesAdd(l: Logs, ms: seq<Message>, now: Time)
    ensures ToldIn(OnMessages(l, ms, now)) == Plus(ToldIn(l), ByMessages(ms, now))
    ensures OnMessages(l, ms, now).frames == l.frames
  {
    if ms != [] {
      var (front, m) := (ms[..|ms| - 1], ms[|ms| - 1]);
      MessagesAdd(l, front, now);
      MessageAdds(OnMessages(l, front, now), m, now);
      PlusAssociates(ToldIn(l), ByMessages(front, now), ByMessage(m, now));
    } else {
      PlusNothing(ToldIn(l));
    }
  }

  lemma PollAddsNothing(o: Options, heard: Logs, p: PollInput)
    ensures ToldIn(Flown(o, Monitored(heard, p.now), VehicleAt(heard, p.now), p)) == ToldIn(heard)
  {
    var v := VehicleAt(heard, p.now);
    var seen := Monitored(heard, p.now);
    var polled := StartupPolled(seen, v, p);
    ReportsSnoc(heard.vehicle, V.Look(p.now));
    ParamsSnoc(heard.failsafe, F.Observe(v.connected, v.systemId));
    StreamAcksSnoc(heard.streams, T.Poll(v.connected, v.systemId, p.now));
    StartupAcksSnoc(heard.startup, S.Poll(StartupInput(seen, v, p.now), p.writes.startup));
    RuntimeAcksSnoc(heard.runtime, A.Poll(RuntimeInput(o, polled, v, p.now), p.writes.target, p.writes.land));
  }

  lemma LookAddsNothing(l: Logs, at: Time)
    ensures ToldIn(Looked(l, at)) == ToldIn(l)
  {
    ReportsSnoc(l.vehicle, V.Look(at));
  }

  lemma RestartAddsNothing(l: Logs, at: Time)
    ensures ToldIn(l.(startup := l.startup + [S.Restart(at)], runtime := l.runtime + [A.Restart(at)])) == ToldIn(l)
  {
    StartupAcksSnoc(l.startup, S.Restart(at));
    RuntimeAcksSnoc(l.runtime, A.Restart(at));
  }

  lemma StartAddsNothing(o: Options, l: Logs, at: Time)
    ensures ToldIn(StartLogs(o, l, at)) == ToldIn(l) && StartLogs(o, l, at).frames == l.frames
  {
    LookAddsNothing(l, at);
    RestartAddsNothing(Looked(l, at), at);
  }

  lemma PollAdds(o: Options, l: Logs, p: PollInput)
    ensures ToldIn(PollLogs(o, l, p)) == Plus(ToldIn(l), ByMessages(p.messages, p.now))
    ensures PollLogs(o, l, p).frames == OnFrame(o, l, p).frames
  {
    MessagesAdd(OnFrame(o, l, p), p.messages, p.now);
    PollAddsNothing(o, Received(o, l, p), p);
    R.FailsafeUnaffected(o, Monitored(Received(o, l, p), p.now), VehicleAt(Received(o, l, p), p.now), p);
    R.MonitoringLeavesTheFlight(Received(o, l, p), p.now);
  }

  function ByEvent(e: Event): Told { if e.Poll? then ByMessages(e.input.messages, e.input.now) else NOTHING_TOLD }

  lemma EventAdds(o: Options, l: Logs, e: Event)
    ensures ToldIn(StepLogs(o, l, e)) == Plus(ToldIn(l), ByEvent(e))
  {
    PlusNothing(ToldIn(l));
    match e
    case Poll(p) => PollAdds(o, l, p);
    case Start(at) => StartAddsNothing(o, l, at);
    case Snapshot(at) => LookAddsNothing(l, at);
  }

  /** In every run each component has been told exactly what the messages say, in
      the order they were read. */
  lemma {:induction false} MessagesAreTold(o: Options, h: seq<Event>)
    ensures ToldIn(LogsOf(o, h)) == ByRun(h)
  {
    if h != [] {
      MessagesAreTold(o, h[..|h| - 1]);
      EventAdds(o, LogsOf(o, h[..|h| - 1]), h[|h| - 1]);
    }
  }

  /** And the tracker exactly the camera's frames, if there is vision. */
  lemma {:induction false} FramesAreTracked(o: Options, h: seq<Event>)
    ensures LogsOf(o, h).frames == FramesOf(o, h)
  {
    if h != [] {
      var (front, e) := (h[..|h| - 1], h[|h| - 1]);
      FramesAreTracked(o, front);
      match e
      case Poll(p) => PollAdds(o, LogsOf(o, front), p);
      case Start(at) => StartAddsNothing(o, LogsOf(o, front), at);
      case Snapshot(_) =>
    }
  }

  // --- Acknowledgements come from messages ---

  /** Message j of poll k of the run is an acknowledgement of this command with this
      result, from this system, for the companion, read at this time. */
  ghost predicate Heard(h: seq<Event>, k: nat, j: nat, command: int, result: Byte, source: Byte, at: Time) {
    && k < |h| && h[k].Poll? && h[k].input.now == at && j < |h[k].input.messages|
    && var m := h[k].input.messages[j];
       && m.CommandAck? && m.command == command && m.result == result && m.source == source
       && ToCompanion(m.targetComponent)
  }

  ghost predicate WasHeard(h: seq<Event>, command: int, result: Byte, source: Byte, at: Time) {
    exists k: nat, j: nat :: Heard(h, k, j, command, result, source, at)
  }

  function NumberOf(action: FlightAction): int {
    match action
    case SetGuidedMode => 176
    case Arm => 400
    case Takeoff => 22
    case Land => 21
    case ReturnToLaunch => 20
    case LandingTarget => -1
  }

  ghost predicate AcksHeard(h: seq<Event>, l: Logs) {
    && (forall n :: 0 <= n < |l.startup| && l.startup[n].Ack? ==>
          var e := l.startup[n];
          WasHeard(h, NumberOf(e.action), e.raw, e.source, e.at) && e.outcome == OutcomeIn(e.raw))
    && (forall n :: 0 <= n < |l.runtime| && l.runtime[n].Ack? ==>
          var e := l.runtime[n];
          WasHeard(h, NumberOf(e.action), e.raw, e.source, e.at) && e.outcome == OutcomeIn(e.raw))
  }

  lemma HeardLater(h: seq<Event>, e: Event, l: Logs)
    requires AcksHeard(h, l)
    ensures AcksHeard(h + [e], l)
  {
    forall command, result: Byte, source: Byte, at | WasHeard(h, command, result, source, at)
      ensures WasHeard(h + [e], command, result, source, at)
    {
      var k: nat, j: nat :| Heard(h, k, j, command, result, source, at);
      assert Heard(h + [e], k, j, command, result, source, at);
    }
  }

  lemma {:induction false} MessagesAreHeard(h: seq<Event>, l: Logs, p: PollInput, n: nat)
    requires h != [] && h[|h| - 1] == Poll(p) && n <= |p.messages| && AcksHeard(h, l)
    ensures AcksHeard(h, OnMessages(l, p.messages[..n], p.now))
  {
    if n > 0 {
      var before := p.messages[..n - 1];
      MessagesAreHeard(h, l, p, n - 1);
      assert p.messages[..n][..n - 1] == before && p.messages[..n][n - 1] == p.messages[n - 1];
      MessageIsHeard(h, OnMessages(l, before, p.now), p, n - 1);
    } else {
      assert p.messages[..0] == [];
    }
  }

  lemma MessageIsHeard(h: seq<Event>, l: Logs, p: PollInput, j: nat)
    requires h != [] && h[|h| - 1] == Poll(p) && j < |p.messages| && AcksHeard(h, l)
    ensures AcksHeard(h, OnMessage(l, p.messages[j], p.now))
  {
    var m := p.messages[j];
    MessageTells(l, m, p.now);
    if FlightAck(m, p.now) != [] {
      assert Heard(h, |h| - 1, j, m.command, m.result, m.source, p.now);
    }
  }

  lemma PollIsHeard(o: Options, h: seq<Event>, l: Logs, p: PollInput)
    requires h != [] && h[|h| - 1] == Poll(p) && AcksHeard(h, l)
    ensures AcksHeard(h, PollLogs(o, l, p))
  {
    assert AcksHeard(h, OnFrame(o, l, p));
    assert p.messages[..|p.messages|] == p.messages;
    MessagesAreHeard(h, OnFrame(o, l, p), p, |p.messages|);
    FlightAddsNoAck(o, h, Received(o, l, p), p);
  }

  lemma FlightAddsNoAck(o: Options, h: seq<Event>, heard: Logs, p: PollInput)
    requires AcksHeard(h, heard)
    ensures AcksHeard(h, Flown(o, Monitored(heard, p.now), VehicleAt(heard, p.now), p))
  {
    R.MonitoringLeavesTheFlight(heard, p.now);
  }

  /** In every run every acknowledgement that a flight machine is told is a message
      of that number and result that some poll has read. */
  lemma {:induction false} AcksWereHeard(o: Options, h: seq<Event>)
    ensures AcksHeard(h, LogsOf(o, h))
  {
    if h != [] {
      var (front, e) := (h[..|h| - 1], h[|h| - 1]);
      AcksWereHeard(o, front);
      assert front + [e] == h;
      HeardLater(front, e, LogsOf(o, front));
      if e.Poll? { PollIsHeard(o, h, LogsOf(o, front), e.input); }
    }
  }

  /** The acknowledgement at a milestone was such a message, and it said yes. */
  lemma AcceptedWasHeard(h: seq<Event>, l: Logs, cfg: S.Config, k: nat, at: nat, system: Byte)
    requires AcksHeard(h, l) && k in {1, 4, 7} && S.Reached(cfg, l.startup, k, at, system)
    ensures WasHeard(h, if k == 1 then 176 else if k == 4 then 400 else 22, 0, system, S.At(l.startup[at]))
  {
    var e := l.startup[at];
    assert e.Ack? && e.outcome == Accepted && e.source == system;
  }

  lemma LandWasHeard(h: seq<Event>, l: Logs, cfg: A.Config, at: nat)
    requires AcksHeard(h, l) && at < |l.runtime| && H.Milestone(cfg, l.runtime, 1, at)
    ensures exists system: Byte :: WasHeard(h, 21, 0, system, A.At(l.runtime[at]))
  {
    var e := l.runtime[at];
    assert e.Ack? && e.outcome == Accepted && WasHeard(h, 21, 0, e.source, e.at);
    assert WasHeard(h, 21, 0, e.source, A.At(l.runtime[at]));
  }

  ghost predicate StartupHeard(h: seq<Event>, es: seq<S.Event>, marks: seq<nat>, system: Byte) {
    && |marks| == 9 && (forall k :: 0 <= k < 9 ==> marks[k] < |es|)
    && WasHeard(h, 176, 0, system, S.At(es[marks[1]])) && WasHeard(h, 400, 0, system, S.At(es[marks[4]]))
    && WasHeard(h, 22, 0, system, S.At(es[marks[7]]))
  }

  /** A completed flight rests on four messages among its milestones: results 0 for
      176, 400 and 22 from the pinned system, and for 21. */
  lemma {:induction false} CompletedFlightIsHeard(o: Options, h: seq<Event>)
    requires WellFormed(o) && R.RuntimePhase(o, LogsOf(o, h)) == A.Completed
    ensures var (l, system) := (LogsOf(o, h), S.Run(o.startup, LogsOf(o, h).startup).systemId);
            && system.Some?
            && (exists marks ::
                  S.Chain(o.startup, l.startup, marks, system.value) && StartupHeard(h, l.startup, marks, system.value))
            && (exists marks, lander: Byte ::
                  |marks| == 3 && H.Chain(o.runtime, l.runtime, marks) &&
                  WasHeard(h, 21, 0, lander, A.At(l.runtime[marks[1]])))
  {
    var l := LogsOf(o, h);
    AcksWereHeard(o, h);
    ApplicationTiming.CompletedFlightIsEarned(o, h);
    var system := S.Run(o.startup, l.startup).systemId.value;
    var marks: seq<nat> :| |marks| == 9 && S.Chain(o.startup, l.startup, marks, system);
    MarksAreHeard(h, l, o.startup, marks, system);
    var landing: seq<nat> :| |landing| == 3 && H.Chain(o.runtime, l.runtime, landing);
    assert H.Milestone(o.runtime, l.runtime, 1, landing[1]);
    LandWasHeard(h, l, o.runtime, landing[1]);
  }

  lemma MarksAreHeard(h: seq<Event>, l: Logs, cfg: S.Config, marks: seq<nat>, system: Byte)
    requires AcksHeard(h, l) && |marks| == 9 && S.Chain(cfg, l.startup, marks, system)
    ensures StartupHeard(h, l.startup, marks, system)
  {
    AcceptedWasHeard(h, l, cfg, 1, marks[1], system);
    AcceptedWasHeard(h, l, cfg, 4, marks[4], system);
    AcceptedWasHeard(h, l, cfg, 7, marks[7], system);
    assert forall k :: 0 <= k < 9 ==> S.Reached(cfg, l.startup, k, marks[k], system);
  }
}
