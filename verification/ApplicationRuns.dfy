/** What holds over every run of the application: the two flight machines stay
    coupled, and every flight command is backed by its whole history. */
module ApplicationRuns {
  import opened FlightTypes
  import opened Application
  import A = Autonomy
  import F = LinkFailsafe
  import Guidance
  import K = Tracking
  import S = FlightStartup
  import X = Transform

  // --- The coupling of the two machines ---

  predicate Coupled(enabled: bool, s: S.Phase, r: A.Phase) {
    && (s == S.Disabled <==> !enabled) && (r == A.Disabled <==> !enabled)
    && (r == A.WaitingForStartup <==> !S.Terminal(s))
    && (r in {A.Active, A.Landing, A.Completed} ==> s == S.Completed)
    && (s == S.Failed ==> r == A.Failed)
  }

  /** Between the messages and the updates of one poll the startup may have
      failed without the runtime having noticed. */
  predicate LooselyCoupled(enabled: bool, s: S.Phase, r: A.Phase) {
    Coupled(enabled, s, r) || (enabled && s == S.Failed && r == A.WaitingForStartup)
  }

  predicate AckedStartup(s: S.Phase, s': S.Phase) { s' == s || (S.Commanding(s) && s' == S.Failed) }

  predicate AckedRuntime(r: A.Phase, r': A.Phase) { r' == r || (r == A.Active && r' in {A.Landing, A.Failed}) }

  lemma StartupAckPhase(s: S.Startup, action: FlightAction, outcome: AckOutcome, raw: Byte, source: Byte, now: Time)
    ensures AckedStartup(s.phase, S.OnAck(s, action, outcome, raw, source, now).phase)
  {
  }

  lemma RuntimeAckPhase(r: A.Runtime, action: FlightAction, outcome: AckOutcome, raw: Byte, source: Byte, now: Time)
    requires A.Consistent(r)
    ensures AckedRuntime(r.phase, A.OnAck(r, action, outcome, raw, source, now).phase)
  {
  }

  /** What one message adds to the two flight machines: nothing or one acknowledgement. */
  predicate OneAck(l: Logs, l': Logs) {
    || (l'.startup == l.startup && l'.runtime == l.runtime)
    || (&& |l'.startup| == |l.startup| + 1 && |l'.runtime| == |l.runtime| + 1
        && l'.startup == l.startup + [l'.startup[|l.startup|]] && l'.startup[|l.startup|].Ack?
        && l'.runtime == l.runtime + [l'.runtime[|l.runtime|]] && l'.runtime[|l.runtime|].Ack?)
  }

  lemma MessageAddsOneAck(l: Logs, m: Message, now: Time)
    ensures OneAck(l, OnMessage(l, m, now))
  {
  }

  lemma MessageKeepsPhases(o: Options, l: Logs, l': Logs)
    requires OneAck(l, l')
    ensures AckedStartup(S.Run(o.startup, l.startup).phase, S.Run(o.startup, l'.startup).phase)
    ensures AckedRuntime(A.Run(o.runtime, l.runtime).phase, A.Run(o.runtime, l'.runtime).phase)
  {
    if l'.startup != l.startup {
      var (a, b) := (l'.startup[|l.startup|], l'.runtime[|l.runtime|]);
      StartupSnoc(o.startup, l.startup, a);
      RuntimeSnoc(o.runtime, l.runtime, b);
      StartupAckPhase(S.Run(o.startup, l.startup), a.action, a.outcome, a.raw, a.source, a.at);
      RuntimeAckPhase(A.Run(o.runtime, l.runtime), b.action, b.outcome, b.raw, b.source, b.at);
    }
  }

  lemma {:induction false} MessagesKeepPhases(o: Options, l: Logs, ms: seq<Message>, now: Time)
    ensures var l' := OnMessages(l, ms, now);
            && AckedStartup(S.Run(o.startup, l.startup).phase, S.Run(o.startup, l'.startup).phase)
            && AckedRuntime(A.Run(o.runtime, l.runtime).phase, A.Run(o.runtime, l'.runtime).phase)
  {
    if ms != [] {
      MessagesKeepPhases(o, l, ms[..|ms| - 1], now);
      var before := OnMessages(l, ms[..|ms| - 1], now);
      MessageAddsOneAck(before, ms[|ms| - 1], now);
      MessageKeepsPhases(o, before, OnMessages(l, ms, now));
    }
  }

  predicate PolledStartup(s: S.Phase, s': S.Phase) {
    (S.Terminal(s) ==> s' == s) && (!S.Terminal(s) ==> s' != S.Disabled)
  }

  predicate PolledRuntime(r: A.Phase, startup: S.Phase, r': A.Phase) {
    match r
    case WaitingForStartup =>
      if startup == S.Completed then r' in {A.Active, A.Failed}
      else r' == if startup == S.Failed then A.Failed else A.WaitingForStartup
    case Active => r' in {A.Active, A.Failed}
    case Landing => r' in {A.Landing, A.Completed, A.Failed}
    case _ => r' == r
  }

  lemma StartupPollPhases(cfg: S.Config, s: S.Startup, i: S.Input, delivered: bool)
    requires S.Consistent(s)
    ensures var s' := S.Step(cfg, s, S.Poll(i, delivered));
            var r := S.Update(cfg, s, i).1;
            && PolledStartup(s.phase, s'.phase)
            && (r.Some? ==> !S.Terminal(s.phase) && (S.Commanding(s'.phase) || s'.phase == S.Failed))
  {
    S.CommandsArePinned(cfg, s, i);
    if !S.Terminal(s.phase) && !S.LinkLost(s, i) {
      S.SettledAfterTwo(s, i);
    }
  }

  lemma RuntimePollPhases(cfg: A.Config, r: A.Runtime, i: A.Input, targetSent: bool, landSent: bool)
    requires A.Consistent(r)
    ensures PolledRuntime(r.phase, i.startup, A.Step(cfg, r, A.Poll(i, targetSent, landSent)).phase)
  {
    var (u, a) := A.Update(cfg, r, i);
    A.UpdatePhase(cfg, r, i);
    DeliveredPhase(r, u, a, i, targetSent, landSent);
  }

  lemma DeliveredPhase(r: A.Runtime, u: A.Runtime, a: A.Actions, i: A.Input, targetSent: bool, landSent: bool)
    requires A.PhaseEffect(r, u, a.land, i)
    ensures PolledRuntime(r.phase, i.startup, A.Deliver(u, a, targetSent, landSent).phase)
  {
  }

  /** Failures and completions are noticed within the poll. */
  lemma PollCouples(enabled: bool, s: S.Phase, r: A.Phase, s': S.Phase, r': A.Phase)
    requires LooselyCoupled(enabled, s, r) && PolledStartup(s, s') && PolledRuntime(r, s', r')
    ensures Coupled(enabled, s', r')
  {
    if r == A.WaitingForStartup && s' == S.Completed {
      assert S.Terminal(s') && r' in {A.Active, A.Failed};
    }
  }

  function StartupPhase(o: Options, l: Logs): S.Phase { S.Run(o.startup, l.startup).phase }

  function RuntimePhase(o: Options, l: Logs): A.Phase { A.Run(o.runtime, l.runtime).phase }

  lemma FlownPhases(o: Options, l: Logs, v: Vehicle, p: PollInput)
    ensures var l' := Flown(o, l, v, p);
            && PolledStartup(StartupPhase(o, l), StartupPhase(o, l'))
            && PolledRuntime(RuntimePhase(o, l), StartupPhase(o, l'), RuntimePhase(o, l'))
  {
    var polled := StartupPolled(l, v, p);
    var (si, ri) := (StartupInput(l, v, p.now), RuntimeInput(o, polled, v, p.now));
    StartupSnoc(o.startup, l.startup, S.Poll(si, p.writes.startup));
    RuntimeSnoc(o.runtime, polled.runtime, A.Poll(ri, p.writes.target, p.writes.land));
    StartupPollPhases(o.startup, S.Run(o.startup, l.startup), si, p.writes.startup);
    RuntimePollPhases(o.runtime, A.Run(o.runtime, l.runtime), ri, p.writes.target, p.writes.land);
  }

  lemma MonitoringLeavesTheFlight(l: Logs, now: Time)
    ensures Monitored(l, now).startup == l.startup && Monitored(l, now).runtime == l.runtime
    ensures Monitored(l, now).frames == l.frames
  {
  }

  lemma HeardPhases(o: Options, l: Logs, p: PollInput)
    ensures var l' := Monitored(Received(o, l, p), p.now);
            AckedStartup(StartupPhase(o, l), StartupPhase(o, l'))
            && AckedRuntime(RuntimePhase(o, l), RuntimePhase(o, l'))
  {
    var framed := OnFrame(o, l, p);
    assert framed.startup == l.startup && framed.runtime == l.runtime;
    MessagesKeepPhases(o, framed, p.messages, p.now);
    MonitoringLeavesTheFlight(Received(o, l, p), p.now);
  }

  lemma PollKeepsCoupling(o: Options, l: Logs, p: PollInput)
    requires Coupled(o.startup.enabled, StartupPhase(o, l), RuntimePhase(o, l))
    ensures var l' := PollLogs(o, l, p);
            Coupled(o.startup.enabled, StartupPhase(o, l'), RuntimePhase(o, l'))
  {
    HeardPhases(o, l, p);
    var heard := Received(o, l, p);
    var seen := Monitored(heard, p.now);
    var l' := Flown(o, seen, VehicleAt(heard, p.now), p);
    FlownPhases(o, seen, VehicleAt(heard, p.now), p);
    PollCouples(o.startup.enabled, StartupPhase(o, seen), RuntimePhase(o, seen),
                StartupPhase(o, l'), RuntimePhase(o, l'));
  }

  lemma StartKeepsCoupling(o: Options, l: Logs, at: Time)
    requires WellFormed(o) && Coupled(o.startup.enabled, StartupPhase(o, l), RuntimePhase(o, l))
    ensures var l' := StartLogs(o, l, at);
            Coupled(o.startup.enabled, StartupPhase(o, l'), RuntimePhase(o, l'))
  {
    StartupSnoc(o.startup, l.startup, S.Restart(at));
    RuntimeSnoc(o.runtime, l.runtime, A.Restart(at));
  }

  /** At every poll boundary of every run the runtime waits exactly while the
      startup is still running, flies only after a completed startup, and has
      failed whenever the startup has. */
  lemma {:induction false} CoupledAlways(o: Options, h: seq<Event>)
    requires WellFormed(o)
    ensures Coupled(o.startup.enabled, StartupPhase(o, LogsOf(o, h)), RuntimePhase(o, LogsOf(o, h)))
  {
    if h != [] {
      var (front, e) := (h[..|h| - 1], h[|h| - 1]);
      CoupledAlways(o, front);
      match e
      case Poll(p) => PollKeepsCoupling(o, LogsOf(o, front), p);
      case Start(at) => StartKeepsCoupling(o, LogsOf(o, front), at);
      case Snapshot(_) =>
    }
  }

  // --- What the coupling gives ---

  ghost function SentAt(o: Options, h: seq<Event>): Sending
    requires h != [] && h[|h| - 1].Poll?
  {
    SentBy(o, LogsOf(o, h[..|h| - 1]), h[|h| - 1].input)
  }

  /** In no poll do both machines send; the startup sends only while the runtime
      waits, and the runtime only with the startup completed. */
  lemma {:induction false} OneMachineSends(o: Options, h: seq<Event>)
    requires WellFormed(o) && h != [] && h[|h| - 1].Poll?
    ensures var sent := SentAt(o, h);
            && (sent.command.Some? ==> sent.actions == A.NOTHING)
            && (sent.command.Some? ==> RuntimePhase(o, LogsOf(o, h)) in {A.WaitingForStartup, A.Failed})
            && (sent.actions != A.NOTHING ==> StartupPhase(o, LogsOf(o, h)) == S.Completed)
  {
    CoupledAlways(o, h[..|h| - 1]);
    OneMachineSpeaks(o, LogsOf(o, h[..|h| - 1]), h[|h| - 1].input);
  }

  lemma OneMachineSpeaks(o: Options, l: Logs, p: PollInput)
    requires Coupled(o.startup.enabled, StartupPhase(o, l), RuntimePhase(o, l))
    ensures var sent := SentBy(o, l, p);
            && (sent.command.Some? ==> sent.actions == A.NOTHING)
            && (sent.command.Some? ==> RuntimePhase(o, PollLogs(o, l, p)) in {A.WaitingForStartup, A.Failed})
            && (sent.actions != A.NOTHING ==> StartupPhase(o, PollLogs(o, l, p)) == S.Completed)
  {
    HeardPhases(o, l, p);
    var heard := Received(o, l, p);
    PollSpeaks(o, Monitored(heard, p.now), VehicleAt(heard, p.now), p);
  }

  lemma PollSpeaks(o: Options, l: Logs, v: Vehicle, p: PollInput)
    requires LooselyCoupled(o.startup.enabled, StartupPhase(o, l), RuntimePhase(o, l))
    ensures var polled := StartupPolled(l, v, p);
            var command := S.Update(o.startup, S.Run(o.startup, l.startup), StartupInput(l, v, p.now)).1;
            var actions := A.Update(o.runtime, A.Run(o.runtime, polled.runtime), RuntimeInput(o, polled, v, p.now)).1;
            && (command.Some? ==> actions == A.NOTHING &&
                                    RuntimePhase(o, Flown(o, l, v, p)) in {A.WaitingForStartup, A.Failed})
            && (actions != A.NOTHING ==> StartupPhase(o, Flown(o, l, v, p)) == S.Completed)
  {
    var polled := StartupPolled(l, v, p);
    var (si, ri) := (StartupInput(l, v, p.now), RuntimeInput(o, polled, v, p.now));
    StartupSnoc(o.startup, l.startup, S.Poll(si, p.writes.startup));
    StartupPollPhases(o.startup, S.Run(o.startup, l.startup), si, p.writes.startup);
    A.ActionsAreSafe(o.runtime, A.Run(o.runtime, polled.runtime), ri);
    FlownPhases(o, l, v, p);
  }

  lemma CompletedPoll(o: Options, l: Logs, p: PollInput)
    requires StartupPhase(o, l) == S.Completed
    ensures StartupPhase(o, PollLogs(o, l, p)) == S.Completed && SentBy(o, l, p).command.None?
  {
    HeardPhases(o, l, p);
    var heard := Received(o, l, p);
    var (seen, v) := (Monitored(heard, p.now), VehicleAt(heard, p.now));
    FlownPhases(o, seen, v, p);
    StartupPollPhases(o.startup, S.Run(o.startup, seen.startup), StartupInput(seen, v, p.now), p.writes.startup);
  }

  /** No start request from position i on was granted. */
  ghost predicate NoRestart(o: Options, h: seq<Event>, i: nat) {
    |h| > i ==>
      var (front, e) := (h[..|h| - 1], h[|h| - 1]);
      NoRestart(o, front, i) && (e.Start? ==> !MayStart(o, LogsOf(o, front), e.at))
  }

  lemma {:induction false} CompletedStays(o: Options, h: seq<Event>, i: nat)
    requires i <= |h| && StartupPhase(o, LogsOf(o, h[..i])) == S.Completed && NoRestart(o, h, i)
    ensures StartupPhase(o, LogsOf(o, h)) == S.Completed
  {
    if i == |h| {
      assert h[..i] == h;
    } else {
      var (front, e) := (h[..|h| - 1], h[|h| - 1]);
      assert front[..i] == h[..i];
      CompletedStays(o, front, i);
      if e.Poll? {
        CompletedPoll(o, LogsOf(o, front), e.input);
      }
    }
  }

  /** A completed startup, as after every poll in which the runtime sends (see
      OneMachineSends), sends nothing more until a start request is granted: all
      startup commands of a flight come before all its runtime requests. */
  lemma {:induction false} CommandsComeFirst(o: Options, h: seq<Event>, i: nat, p: PollInput)
    requires i <= |h| && StartupPhase(o, LogsOf(o, h[..i])) == S.Completed && NoRestart(o, h, i)
    ensures SentBy(o, LogsOf(o, h), p).command.None?
  {
    CompletedStays(o, h, i);
    CompletedPoll(o, LogsOf(o, h), p);
  }

  /** For the restart request, "both finished" is just "the runtime has finished". */
  lemma FinishedTogether(o: Options, h: seq<Event>)
    requires WellFormed(o)
    ensures var l := LogsOf(o, h);
            StartupPhase(o, l) in {S.Completed, S.Failed} && RuntimePhase(o, l) in {A.Completed, A.Failed}
            <==> RuntimePhase(o, l) in {A.Completed, A.Failed}
  {
    CoupledAlways(o, h);
  }

  /** Without motion permission no run ever sends a flight command. */
  lemma NoPermissionNoCommand(o: Options, h: seq<Event>)
    requires WellFormed(o) && !o.motionAllowed && h != [] && h[|h| - 1].Poll?
    ensures SentAt(o, h) == Sending(None, A.NOTHING)
  {
    var (front, p) := (h[..|h| - 1], h[|h| - 1].input);
    CoupledAlways(o, front);
    HeardPhases(o, LogsOf(o, front), p);
    var heard := Received(o, LogsOf(o, front), p);
    var (seen, v) := (Monitored(heard, p.now), VehicleAt(heard, p.now));
    StartupPollPhases(o.startup, S.Run(o.startup, seen.startup), StartupInput(seen, v, p.now), p.writes.startup);
  }

  // --- Every command is backed by the session's parameters ---

  /** The vehicle of the poll is connected, the failsafe session is its system id,
      and the last values heard from that system's autopilot since the session
      began satisfy the whole policy; the policy names the same id as the GCS. */
  ghost predicate Backed(l: Logs, v: Vehicle) {
    && v.connected && v.systemId.Some?
    && F.Session(l.failsafe) == v.systemId
    && F.PolicyHolds(v.systemId.value, F.LatestAll(l.failsafe))
    && F.Latest(l.failsafe, F.MY_GCS) == Some(Num(v.systemId.value as real))
  }

  lemma AcceptedIsBacked(l: Logs, now: Time)
    requires var seen := Monitored(l, now); LinkAccepted(seen) && VehicleAt(l, now).connected
    ensures Backed(Monitored(l, now), VehicleAt(l, now))
  {
    var (es, v) := (Monitored(l, now).failsafe, VehicleAt(l, now));
    F.AcceptedIffPolicy(es);
    assert F.Session(es) == v.systemId;
  }

  lemma SendingNeedsTheLink(o: Options, l: Logs, v: Vehicle, p: PollInput)
    ensures var polled := StartupPolled(l, v, p);
            var (u, command) := S.Update(o.startup, S.Run(o.startup, l.startup), StartupInput(l, v, p.now));
            var actions := A.Update(o.runtime, A.Run(o.runtime, polled.runtime), RuntimeInput(o, polled, v, p.now)).1;
            && (command.Some? || actions != A.NOTHING ==> LinkAccepted(l) && v.connected)
            && (command.Some? ==> u.systemId == Some(command.value.systemId))
            && (forall r :: r in actions.Sequence() ==> v.systemId == Some(r.systemId))
  {
    var polled := StartupPolled(l, v, p);
    S.CommandsArePinned(o.startup, S.Run(o.startup, l.startup), StartupInput(l, v, p.now));
    A.ActionsAreSafe(o.runtime, A.Run(o.runtime, polled.runtime), RuntimeInput(o, polled, v, p.now));
  }

  /** In every run every flight command is sent in a poll that saw its vehicle
      connected and whose failsafe session holds the whole policy; a guidance or
      LAND request goes to that very vehicle, which is also the configured GCS id. */
  lemma {:induction false} CommandsAreBacked(o: Options, h: seq<Event>)
    requires h != [] && h[|h| - 1].Poll?
    ensures var (front, p) := (LogsOf(o, h[..|h| - 1]), h[|h| - 1].input);
            var v := VehicleAt(Received(o, front, p), p.now);
            var sent := SentAt(o, h);
            && (sent != Sending(None, A.NOTHING) ==> Backed(LogsOf(o, h), v))
            && (forall r :: r in sent.actions.Sequence() ==> Some(r.systemId) == v.systemId)
  {
    BackedPoll(o, LogsOf(o, h[..|h| - 1]), h[|h| - 1].input);
  }

  lemma BackedPoll(o: Options, l: Logs, p: PollInput)
    ensures var v := VehicleAt(Received(o, l, p), p.now);
            var sent := SentBy(o, l, p);
            && (sent != Sending(None, A.NOTHING) ==> Backed(PollLogs(o, l, p), v))
            && (forall r :: r in sent.actions.Sequence() ==> Some(r.systemId) == v.systemId)
  {
    var heard := Received(o, l, p);
    var (seen, v) := (Monitored(heard, p.now), VehicleAt(heard, p.now));
    SendingNeedsTheLink(o, seen, v, p);
    if SentBy(o, l, p) != Sending(None, A.NOTHING) {
      AcceptedIsBacked(heard, p.now);
      FailsafeUnaffected(o, seen, v, p);
    }
  }

  lemma FailsafeUnaffected(o: Options, l: Logs, v: Vehicle, p: PollInput)
    ensures Flown(o, l, v, p).failsafe == l.failsafe && Flown(o, l, v, p).frames == l.frames
  {
  }

  // --- Whom the startup commands ---

  function SeenIn(o: Options, l: Logs, p: PollInput): Vehicle { VehicleAt(Received(o, l, p), p.now) }

  /** The first vehicle the polls saw connected with an id since the run began or
      a start request was last granted. */
  ghost function FirstVehicle(o: Options, h: seq<Event>): Option<Byte> {
    if h == [] then None
    else
      var (front, e) := (h[..|h| - 1], h[|h| - 1]);
      match e
      case Poll(p) =>
        var v := SeenIn(o, LogsOf(o, front), p);
        if FirstVehicle(o, front).Some? then FirstVehicle(o, front) else if v.connected then v.systemId else None
      case Start(at) => if MayStart(o, LogsOf(o, front), at) then None else FirstVehicle(o, front)
      case Snapshot(_) => FirstVehicle(o, front)
  }

  lemma {:induction false} MessagesSeeNoVehicle(l: Logs, ms: seq<Message>, now: Time)
    ensures S.FirstSeen(OnMessages(l, ms, now).startup) == S.FirstSeen(l.startup)
  {
    if ms != [] {
      MessagesSeeNoVehicle(l, ms[..|ms| - 1], now);
      var before := OnMessages(l, ms[..|ms| - 1], now);
      MessageAddsOneAck(before, ms[|ms| - 1], now);
      AckSeesNoVehicle(before, OnMessages(l, ms, now));
    }
  }

  lemma AckSeesNoVehicle(l: Logs, l': Logs)
    requires OneAck(l, l')
    ensures S.FirstSeen(l'.startup) == S.FirstSeen(l.startup)
  {
    if l'.startup != l.startup {
      assert l'.startup[..|l.startup|] == l.startup;
    }
  }

  lemma {:induction false} SeenSnoc(es: seq<S.Event>, e: S.Event)
    ensures S.FirstSeen(es + [e]) ==
            if e.Restart? then None
            else if S.FirstSeen(es).Some? then S.FirstSeen(es)
            else if e.Poll? && e.input.vehicle.connected then e.input.vehicle.systemId
            else None
  {
    assert (es + [e])[..|es|] == es;
  }

  lemma PollSeesVehicle(o: Options, l: Logs, p: PollInput)
    ensures var v := SeenIn(o, l, p);
            S.FirstSeen(PollLogs(o, l, p).startup) ==
            if S.FirstSeen(l.startup).Some? then S.FirstSeen(l.startup) else if v.connected then v.systemId else None
  {
    MessagesSeeNoVehicle(OnFrame(o, l, p), p.messages, p.now);
    var heard := Received(o, l, p);
    var (seen, v) := (Monitored(heard, p.now), VehicleAt(heard, p.now));
    MonitoringLeavesTheFlight(heard, p.now);
    SeenSnoc(seen.startup, S.Poll(StartupInput(seen, v, p.now), p.writes.startup));
  }

  lemma {:induction false} FirstVehicleIsSeen(o: Options, h: seq<Event>)
    ensures S.FirstSeen(LogsOf(o, h).startup) == FirstVehicle(o, h)
  {
    if h != [] {
      var (front, e) := (h[..|h| - 1], h[|h| - 1]);
      FirstVehicleIsSeen(o, front);
      match e
      case Poll(p) => PollSeesVehicle(o, LogsOf(o, front), p);
      case Start(at) => SeenSnoc(LogsOf(o, front).startup, S.Restart(at));
      case Snapshot(_) =>
    }
  }

  /** In every run a startup command goes to the first vehicle of its flight. That
      is the accepted failsafe session's vehicle exactly if the vehicle that the
      poll sees still has the first one's id. */
  lemma {:induction false} CommandsGoToTheFirst(o: Options, h: seq<Event>)
    requires h != [] && h[|h| - 1].Poll? && SentAt(o, h).command.Some?
    ensures var (target, session) := (SentAt(o, h).command.value.systemId, F.Session(LogsOf(o, h).failsafe));
            && FirstVehicle(o, h) == Some(target)
            && (session == Some(target) <==>
                                    SeenIn(o, LogsOf(o, h[..|h| - 1]), h[|h| - 1].input).systemId == FirstVehicle(o, h))
  {
    var (l, p) := (LogsOf(o, h[..|h| - 1]), h[|h| - 1].input);
    BackedPoll(o, l, p);
    FirstVehicleIsSeen(o, h);
    var heard := Received(o, l, p);
    CommandIsPinned(o, Monitored(heard, p.now), VehicleAt(heard, p.now), p);
  }

  lemma CommandIsPinned(o: Options, l: Logs, v: Vehicle, p: PollInput)
    requires S.Update(o.startup, S.Run(o.startup, l.startup), StartupInput(l, v, p.now)).1.Some?
    ensures S.FirstSeen(Flown(o, l, v, p).startup) ==
            Some(S.Update(o.startup, S.Run(o.startup, l.startup), StartupInput(l, v, p.now)).1.value.systemId)
  {
    var e := S.Poll(StartupInput(l, v, p.now), p.writes.startup);
    SendingNeedsTheLink(o, l, v, p);
    StartupSnoc(o.startup, l.startup, e);
    SentKeepsTarget(o.startup, S.Run(o.startup, l.startup), e);
    S.PinnedToTheFirst(o.startup, l.startup + [e]);
  }

  lemma SentKeepsTarget(cfg: S.Config, s: S.Startup, e: S.Event)
    requires S.Consistent(s) && e.Poll?
    ensures S.Step(cfg, s, e).systemId == S.Update(cfg, s, e.input).0.systemId
  {
  }

  // --- A lost link ends the flight ---

  /** The flight is under way and the poll finds its link lost: the vehicle is
      disconnected or, once commands are due, the failsafe is not accepted. */
  ghost predicate LosesTheLink(o: Options, l: Logs, p: PollInput) {
    var (s, r, v) := (StartupPhase(o, l), RuntimePhase(o, l), SeenIn(o, l, p));
    || (s == S.WaitingForReadiness && !v.connected)
    || ((S.Commanding(s) || r in {A.Active, A.Landing}) &&
        (!v.connected || !LinkAccepted(Monitored(Received(o, l, p), p.now))))
  }

  lemma StartupLoses(cfg: S.Config, s: S.Startup, i: S.Input, delivered: bool)
    requires S.Consistent(s)
    requires s.phase == S.Failed || ((s.phase == S.WaitingForReadiness || S.Commanding(s.phase)) && S.LinkLost(s, i))
    ensures S.Update(cfg, s, i).1.None? && S.Step(cfg, s, S.Poll(i, delivered)).phase == S.Failed
  {
  }

  lemma RuntimeLoses(cfg: A.Config, r: A.Runtime, i: A.Input, targetSent: bool, landSent: bool)
    requires A.Consistent(r)
    requires || r.phase == A.Failed || (r.phase == A.WaitingForStartup && i.startup == S.Failed)
             || (r.phase in {A.Active, A.Landing} && (!i.vehicle.connected || !i.linkAccepted))
    ensures A.Update(cfg, r, i).1 == A.NOTHING && A.Step(cfg, r, A.Poll(i, targetSent, landSent)).phase == A.Failed
  {
  }

  /** In the startup's turn, with the runtime still waiting. */
  lemma LostInStartup(o: Options, l: Logs, v: Vehicle, p: PollInput)
    requires RuntimePhase(o, l) in {A.WaitingForStartup, A.Failed}
    requires var s := S.Run(o.startup, l.startup);
             || s.phase == S.Failed
             || ((s.phase == S.WaitingForReadiness || S.Commanding(s.phase)) &&
                 S.LinkLost(s, StartupInput(l, v, p.now)))
    ensures Ended(o, l, v, p)
  {
    var polled := StartupPolled(l, v, p);
    var (si, ri) := (StartupInput(l, v, p.now), RuntimeInput(o, polled, v, p.now));
    StartupSnoc(o.startup, l.startup, S.Poll(si, p.writes.startup));
    RuntimeSnoc(o.runtime, l.runtime, A.Poll(ri, p.writes.target, p.writes.land));
    StartupLoses(o.startup, S.Run(o.startup, l.startup), si, p.writes.startup);
    RuntimeLoses(o.runtime, A.Run(o.runtime, l.runtime), ri, p.writes.target, p.writes.land);
  }

  lemma LostInRuntime(o: Options, l: Logs, v: Vehicle, p: PollInput)
    requires S.Terminal(StartupPhase(o, l)) && RuntimePhase(o, l) in {A.Active, A.Landing, A.Failed}
    requires !v.connected || !LinkAccepted(l)
    ensures Ended(o, l, v, p)
  {
    var polled := StartupPolled(l, v, p);
    var (si, ri) := (StartupInput(l, v, p.now), RuntimeInput(o, polled, v, p.now));
    StartupPollPhases(o.startup, S.Run(o.startup, l.startup), si, p.writes.startup);
    RuntimeSnoc(o.runtime, l.runtime, A.Poll(ri, p.writes.target, p.writes.land));
    RuntimeLoses(o.runtime, A.Run(o.runtime, l.runtime), ri, p.writes.target, p.writes.land);
  }

  /** The poll sends nothing and leaves the flight failed. */
  ghost predicate Ended(o: Options, l: Logs, v: Vehicle, p: PollInput) {
    var polled := StartupPolled(l, v, p);
    && S.Update(o.startup, S.Run(o.startup, l.startup), StartupInput(l, v, p.now)).1.None?
    && A.Update(o.runtime, A.Run(o.runtime, polled.runtime), RuntimeInput(o, polled, v, p.now)).1 == A.NOTHING
    && RuntimePhase(o, Flown(o, l, v, p)) == A.Failed
  }

  lemma LostLinkPoll(o: Options, l: Logs, p: PollInput)
    requires Coupled(o.startup.enabled, StartupPhase(o, l), RuntimePhase(o, l)) && LosesTheLink(o, l, p)
    ensures SentBy(o, l, p) == Sending(None, A.NOTHING) && RuntimePhase(o, PollLogs(o, l, p)) == A.Failed
  {
    HeardPhases(o, l, p);
    var heard := Received(o, l, p);
    var (seen, v) := (Monitored(heard, p.now), VehicleAt(heard, p.now));
    if S.Terminal(StartupPhase(o, l)) {
      LostInRuntime(o, seen, v, p);
    } else {
      LostInStartup(o, seen, v, p);
    }
  }

  ghost predicate Over(o: Options, l: Logs) { S.Terminal(StartupPhase(o, l)) && RuntimeFinished(RuntimePhase(o, l)) }

  lemma FinishedPoll(o: Options, l: Logs, p: PollInput)
    requires Over(o, l)
    ensures Over(o, PollLogs(o, l, p)) && SentBy(o, l, p) == Sending(None, A.NOTHING)
    ensures RuntimePhase(o, PollLogs(o, l, p)) == RuntimePhase(o, l)
  {
    HeardPhases(o, l, p);
    var heard := Received(o, l, p);
    var (seen, v) := (Monitored(heard, p.now), VehicleAt(heard, p.now));
    FlownPhases(o, seen, v, p);
    StartupPollPhases(o.startup, S.Run(o.startup, seen.startup), StartupInput(seen, v, p.now), p.writes.startup);
  }

  /** What is over stays over until a start request is granted. */
  lemma {:induction false} OverStays(o: Options, h: seq<Event>, i: nat)
    requires i <= |h| && Over(o, LogsOf(o, h[..i])) && NoRestart(o, h, i)
    ensures Over(o, LogsOf(o, h)) && RuntimePhase(o, LogsOf(o, h)) == RuntimePhase(o, LogsOf(o, h[..i]))
  {
    if i == |h| {
      assert h[..i] == h;
    } else {
      var (front, e) := (h[..|h| - 1], h[|h| - 1]);
      assert front[..i] == h[..i];
      OverStays(o, front, i);
      if e.Poll? {
        FinishedPoll(o, LogsOf(o, front), e.input);
      }
    }
  }

  lemma {:induction false} LostLinkIsOver(o: Options, h: seq<Event>)
    requires WellFormed(o) && h != [] && h[|h| - 1].Poll? && LosesTheLink(o, LogsOf(o, h[..|h| - 1]), h[|h| - 1].input)
    ensures SentAt(o, h) == Sending(None, A.NOTHING)
    ensures Over(o, LogsOf(o, h)) && RuntimePhase(o, LogsOf(o, h)) == A.Failed
  {
    CoupledAlways(o, h[..|h| - 1]);
    LostLinkPoll(o, LogsOf(o, h[..|h| - 1]), h[|h| - 1].input);
    CoupledAlways(o, h);
  }

  /** In every run a poll that finds the link lost while a flight is under way sends
      nothing, leaves both machines finished and the flight failed; and nothing is
      sent any more until a start request is granted, whatever is heard meanwhile. */
  lemma LostLinkEndsTheFlight(o: Options, h: seq<Event>, i: nat, p: PollInput)
    requires WellFormed(o) && 0 < i <= |h| && h[i - 1].Poll? && NoRestart(o, h, i)
    requires LosesTheLink(o, LogsOf(o, h[..i - 1]), h[i - 1].input)
    ensures SentAt(o, h[..i]) == Sending(None, A.NOTHING)
    ensures Over(o, LogsOf(o, h)) && RuntimePhase(o, LogsOf(o, h)) == A.Failed
    ensures SentBy(o, LogsOf(o, h), p) == Sending(None, A.NOTHING)
  {
    assert h[..i][..i - 1] == h[..i - 1];
    LostLinkIsOver(o, h[..i]);
    OverStays(o, h, i);
    FinishedPoll(o, LogsOf(o, h), p);
  }

  // --- Where guidance comes from ---

  /** A guidance request at `now`: the smoothed position of one tag, seen at least
      three times, first in three consecutive frames, never more than 500 ms apart
      and last at most 250 ms ago, moved into body coordinates below the vehicle. */
  ghost predicate Grounded(o: Options, frames: seq<K.Frame>, r: FlightRequest, now: Time) {
    var hits := K.Hits(K.DEFAULT, frames);
    && o.extrinsics.Some? && X.Accepts(o.extrinsics.value)
    && |hits| >= 3 && K.Provenance(K.DEFAULT, frames, hits)
    && now - frames[hits[|hits| - 1].frame].at <= 250_000_000
    && var tag := K.SmoothPoint(K.Points(K.DEFAULT, frames, hits), K.DEFAULT.alpha);
       var e := o.extrinsics.value;
       && r.action == LandingTarget
       && r.position == X.BodyOf(X.Plus(X.Apply(X.MatrixOf(e.rotation), X.Vec(tag.right, tag.down, tag.forward)),
                                        X.VecOf(e.origin)))
       && r.position.down.value > 0.0
       && r.timeUsec == A.Microseconds(now)
  }

  lemma {:induction false} TargetIsGrounded(o: Options, frames: seq<K.Frame>, now: Time, systemId: Byte)
    requires WellFormed(o)
    requires var t := TargetOf(o, K.Run(K.DEFAULT, frames), now); t.Some? && Guidance.Approved(t)
    ensures Grounded(o, frames, A.TargetRequest(systemId, TargetOf(o, K.Run(K.DEFAULT, frames), now).value, now), now)
  {
    K.LockIsEarned(K.DEFAULT, frames, now);
  }

  /** Every LANDING_TARGET of every run is grounded in the frames processed so far. */
  lemma {:induction false} GuidanceIsGrounded(o: Options, h: seq<Event>)
    requires WellFormed(o) && h != [] && h[|h| - 1].Poll? && SentAt(o, h).actions.target.Some?
    ensures Grounded(o, LogsOf(o, h).frames, SentAt(o, h).actions.target.value, h[|h| - 1].input.now)
  {
    GroundedPoll(o, LogsOf(o, h[..|h| - 1]), h[|h| - 1].input);
  }

  lemma GroundedPoll(o: Options, l: Logs, p: PollInput)
    requires WellFormed(o) && SentBy(o, l, p).actions.target.Some?
    ensures Grounded(o, PollLogs(o, l, p).frames, SentBy(o, l, p).actions.target.value, p.now)
  {
    var heard := Received(o, l, p);
    var (seen, v) := (Monitored(heard, p.now), VehicleAt(heard, p.now));
    var polled := StartupPolled(seen, v, p);
    A.ActionsAreSafe(o.runtime, A.Run(o.runtime, polled.runtime), RuntimeInput(o, polled, v, p.now));
    TargetIsGrounded(o, polled.frames, p.now, v.systemId.value);
    FailsafeUnaffected(o, seen, v, p);
  }
}
