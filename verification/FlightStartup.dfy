/** The GUIDED, ARM, TAKEOFF startup protocol of one flight. */
module FlightStartup {
  import opened FlightTypes
  import opened CommandTrace

  const ARDUPILOT: Byte := 3
  const GUIDED_MODE := 4
  const READINESS_TIMEOUT: Time := 90 * SECOND
  const MODE_TIMEOUT: Time := 10 * SECOND
  const ARMING_TIMEOUT: Time := 10 * SECOND
  const TAKEOFF_TIMEOUT: Time := 45 * SECOND
  const ALTITUDE_TOLERANCE := 0.35

  datatype Phase =
    | Disabled | WaitingForVehicle | WaitingForReadiness
    | SettingGuided | Arming | TakingOff | Completed | Failed

  datatype Config = Config(enabled: bool, altitude: real)

  datatype Startup = Startup(
    phase: Phase,
    systemId: Option<Byte>,
    attempt: nat,
    awaitingAck: bool,
    commandAccepted: bool,
    ackDeadline: Time,
    phaseDeadline: Time,
    failure: Option<Byte>)

  predicate Terminal(phase: Phase) { phase in {Disabled, Completed, Failed} }

  predicate Commanding(phase: Phase) { phase in {SettingGuided, Arming, TakingOff} }

  function Stage(phase: Phase): nat {
    if phase == SettingGuided then 0 else if phase == Arming then 1 else 2
  }

  function Expected(phase: Phase): Option<FlightAction> {
    match phase
    case SettingGuided => Some(SetGuidedMode)
    case Arming => Some(Arm)
    case TakingOff => Some(Takeoff)
    case _ => None
  }

  function Initial(cfg: Config): Startup {
    Startup(if cfg.enabled then WaitingForVehicle else Disabled, None, 0, false, false, 0, 0, None)
  }

  predicate Consistent(s: Startup) {
    && s.attempt <= MAX_ATTEMPTS
    && (s.phase == WaitingForReadiness || Commanding(s.phase) ==> s.systemId.Some?)
    && (s.awaitingAck ==> Commanding(s.phase))
    && (Commanding(s.phase) && (s.awaitingAck || s.commandAccepted) ==>
          s.attempt > 0 && !(s.awaitingAck && s.commandAccepted))
  }

  predicate IsMulticopter(vehicleType: Option<Byte>) {
    vehicleType.Some? && vehicleType.value in {2, 3, 4, 13, 14, 15}
  }

  // --- One poll, without the source's transition loop ---

  datatype Input = Input(vehicle: Vehicle, telemetryReady: bool, linkAccepted: bool, now: Time)

  function Timeout(phase: Phase): Time {
    match phase
    case WaitingForReadiness => READINESS_TIMEOUT
    case SettingGuided => MODE_TIMEOUT
    case Arming => ARMING_TIMEOUT
    case _ => TAKEOFF_TIMEOUT
  }

  function Enter(s: Startup, phase: Phase, now: Time): Startup {
    s.(phase := phase, attempt := 0, awaitingAck := false, commandAccepted := false,
       phaseDeadline := now + Timeout(phase))
  }

  function Fail(s: Startup): Startup {
    s.(phase := Failed, awaitingAck := false, commandAccepted := false)
  }

  predicate LinkLost(s: Startup, i: Input) {
    s.phase != WaitingForVehicle &&
    (!i.vehicle.connected || (s.phase != WaitingForReadiness && !i.linkAccepted))
  }

  predicate Ready(s: Startup, i: Input) {
    && i.now < s.phaseDeadline
    && i.telemetryReady && i.vehicle.armable && !i.vehicle.armed && i.linkAccepted
    && i.vehicle.relativeAltitude.Some?
  }

  /** The phase change the snapshot allows at once, if any. */
  function Advance(s: Startup, i: Input): (t: Startup)
    ensures Consistent(s) ==> Consistent(t)
  {
    match s.phase
    case WaitingForVehicle =>
      if i.vehicle.connected && i.vehicle.systemId.Some? &&
         i.vehicle.autopilotType == Some(ARDUPILOT) && IsMulticopter(i.vehicle.vehicleType)
      then Enter(s.(systemId := i.vehicle.systemId), WaitingForReadiness, i.now) else s
    case WaitingForReadiness => if Ready(s, i) then Enter(s, SettingGuided, i.now) else s
    case SettingGuided =>
      if s.commandAccepted && i.vehicle.flightMode == Some(GUIDED_MODE) then Enter(s, Arming, i.now) else s
    case Arming => if s.commandAccepted && i.vehicle.armed then Enter(s, TakingOff, i.now) else s
    case _ => s
  }

  /** At most two changes happen in one poll. */
  function Settle(s: Startup, i: Input): Startup { Advance(Advance(s, i), i) }

  /** What the settled phase does: wait, fail, finish or (re)send its command. */
  function Act(cfg: Config, s: Startup, i: Input): (Startup, Option<FlightRequest>)
    requires Consistent(s)
  {
    match s.phase
    case WaitingForVehicle =>
      (if i.vehicle.connected && i.vehicle.systemId.Some? then Fail(s) else s, None)
    case WaitingForReadiness => (if i.now >= s.phaseDeadline then Fail(s) else s, None)
    case SettingGuided => if i.now >= s.phaseDeadline then (Fail(s), None) else Command(s, SetGuidedMode, 0.0, i.now)
    case Arming => if i.now >= s.phaseDeadline then (Fail(s), None) else Command(s, Arm, 0.0, i.now)
    case TakingOff =>
      if s.commandAccepted && !i.vehicle.armed then (Fail(s), None)
      else if s.commandAccepted && AtAltitude(cfg, i.vehicle) then
        (s.(phase := Completed, attempt := 0, awaitingAck := false), None)
      else if i.now >= s.phaseDeadline then (Fail(s), None)
      else Command(s, Takeoff, cfg.altitude, i.now)
    case _ => (s, None)
  }

  predicate AtAltitude(cfg: Config, v: Vehicle) {
    v.relativeAltitude.Some? && v.relativeAltitude.value >= cfg.altitude - ALTITUDE_TOLERANCE
  }

  function Command(s: Startup, action: FlightAction, altitude: real, now: Time): (Startup, Option<FlightRequest>)
    requires Consistent(s) && Commanding(s.phase)
  {
    if s.commandAccepted || (s.awaitingAck && now < s.ackDeadline) then (s, None)
    else if s.attempt >= MAX_ATTEMPTS then (Fail(s), None)
    else
      (s.(attempt := s.attempt + 1, awaitingAck := true, ackDeadline := now + ACK_TIMEOUT),
       Some(CommandRequest(action, s.systemId.value, s.attempt, altitude)))
  }

  function Update(cfg: Config, s: Startup, i: Input): (r: (Startup, Option<FlightRequest>))
    requires Consistent(s)
    ensures Consistent(r.0)
  {
    if Terminal(s.phase) then (s, None)
    else if LinkLost(s, i) then (Fail(s), None)
    else Act(cfg, Settle(s, i), i)
  }

  function OnSent(s: Startup, action: FlightAction, sent: bool): (s': Startup)
    ensures Consistent(s) ==> Consistent(s')
  {
    if Expected(s.phase) != Some(action) || sent then s
    else if s.attempt >= MAX_ATTEMPTS then Fail(s)
    else s.(awaitingAck := false)
  }

  predicate AckMatches(s: Startup, action: FlightAction, source: Byte) {
    Expected(s.phase) == Some(action) && s.awaitingAck && s.systemId == Some(source)
  }

  function OnAck(s: Startup, action: FlightAction, outcome: AckOutcome, raw: Byte, source: Byte,
                 now: Time): (s': Startup)
    ensures Consistent(s) ==> Consistent(s')
  {
    if !AckMatches(s, action, source) then s
    else match outcome
      case Accepted => s.(awaitingAck := false, commandAccepted := true)
      case InProgress => s.(ackDeadline := now + ACK_TIMEOUT)
      case Rejected => Fail(s).(failure := Some(raw))
  }

  /** No third change is ever possible, so the source's loop cannot reach its limit of eight. */
  lemma SettledAfterTwo(s: Startup, i: Input)
    ensures Advance(Settle(s, i), i) == Settle(s, i)
    ensures s.phase != WaitingForVehicle ==> Settle(s, i) == Advance(s, i)
  {
  }

  // --- Histories of one controller ---

  datatype Event =
    | Poll(input: Input, delivered: bool)
    | Ack(action: FlightAction, outcome: AckOutcome, raw: Byte, source: Byte, at: Time)
    | Restart(at: Time)

  function At(e: Event): Time { if e.Poll? then e.input.now else e.at }

  function Step(cfg: Config, s: Startup, e: Event): (s': Startup)
    requires Consistent(s)
    ensures Consistent(s')
  {
    match e
    case Poll(i, delivered) =>
      var (s', r) := Update(cfg, s, i);
      if r.Some? then OnSent(s', r.value.action, delivered) else s'
    case Ack(action, outcome, raw, source, at) => OnAck(s, action, outcome, raw, source, at)
    case Restart(_) => Initial(cfg)
  }

  function Run(cfg: Config, es: seq<Event>): (s: Startup)
    ensures Consistent(s)
  {
    if es == [] then Initial(cfg) else Step(cfg, Run(cfg, es[..|es| - 1]), es[|es| - 1])
  }

  function Emitted(cfg: Config, s: Startup, e: Event): Option<FlightRequest>
    requires Consistent(s)
  {
    if e.Poll? then Update(cfg, s, e.input).1 else None
  }

  function ActionStage(a: FlightAction): nat {
    if a == SetGuidedMode then 0 else if a == Arm then 1 else 2
  }

  function Record(cfg: Config, s: Startup, t: seq<Sent>, e: Event): seq<Sent>
    requires Consistent(s)
  {
    var r := Emitted(cfg, s, e);
    if e.Restart? then []
    else if r.Some? then t + [Sent(ActionStage(r.value.action), r.value.confirmation, At(e), e.delivered)]
    else t
  }

  /** The commands of the current flight: those sent since the last restart. */
  function Trace(cfg: Config, es: seq<Event>): seq<Sent> {
    if es == [] then []
    else Record(cfg, Run(cfg, es[..|es| - 1]), Trace(cfg, es[..|es| - 1]), es[|es| - 1])
  }

  predicate Monotone(es: seq<Event>) {
    forall i, j :: 0 <= i < j < |es| ==> At(es[i]) <= At(es[j])
  }

  // --- The command language ---

  ghost predicate TraceInv(s: Startup, t: seq<Sent>, now: Time) {
    && Disciplined(t)
    && (s.phase in {Disabled, WaitingForVehicle, WaitingForReadiness} ==> t == [])
    && (t != [] ==> t[|t| - 1].stage <= 2)
    && (Commanding(s.phase) ==>
          if s.attempt == 0 then
            if Stage(s.phase) == 0 then t == [] else t != [] && t[|t| - 1].stage == Stage(s.phase) - 1
          else
            && t != []
            && t[|t| - 1].stage == Stage(s.phase) && t[|t| - 1].confirmation == s.attempt - 1
            && (s.awaitingAck ==> s.ackDeadline >= t[|t| - 1].at + ACK_TIMEOUT)
            && (!s.awaitingAck && !s.commandAccepted ==> !t[|t| - 1].delivered))
    && (t != [] ==> t[|t| - 1].at <= now)
  }

  lemma CommandKeepsTrace(s: Startup, t: seq<Sent>, action: FlightAction, altitude: real, now: Time, delivered: bool)
    requires Consistent(s) && Commanding(s.phase) && Expected(s.phase) == Some(action)
    requires TraceInv(s, t, now)
    ensures var (s', r) := Command(s, action, altitude, now);
            if r.Some? then
              TraceInv(OnSent(s', action, delivered),
                       t + [Sent(Stage(s.phase), r.value.confirmation, now, delivered)], now)
            else TraceInv(s', t, now)
  {
    var (s', r) := Command(s, action, altitude, now);
    if r.Some? {
      DisciplinedExtend(t, Sent(Stage(s.phase), s.attempt, now, delivered));
    }
  }

  lemma SettleKeepsTrace(s: Startup, t: seq<Sent>, i: Input)
    requires Consistent(s) && TraceInv(s, t, i.now) && !LinkLost(s, i)
    ensures Consistent(Settle(s, i)) && TraceInv(Settle(s, i), t, i.now)
  {
    assert Consistent(Advance(s, i)) && TraceInv(Advance(s, i), t, i.now);
  }

  lemma ActKeepsTrace(cfg: Config, s: Startup, t: seq<Sent>, i: Input, delivered: bool)
    requires Consistent(s) && TraceInv(s, t, i.now)
    ensures var (s', r) := Act(cfg, s, i);
            if r.Some? then
              TraceInv(OnSent(s', r.value.action, delivered),
                       t + [Sent(ActionStage(r.value.action), r.value.confirmation, i.now, delivered)], i.now)
            else TraceInv(s', t, i.now)
  {
    if Commanding(s.phase) {
      CommandKeepsTrace(s, t, Expected(s.phase).value, if s.phase == TakingOff then cfg.altitude else 0.0,
                        i.now, delivered);
    }
  }

  lemma StepKeepsTrace(cfg: Config, s: Startup, t: seq<Sent>, e: Event)
    requires Consistent(s) && TraceInv(s, t, At(e))
    ensures TraceInv(Step(cfg, s, e), Record(cfg, s, t, e), At(e))
  {
    match e
    case Poll(i, delivered) =>
      if !Terminal(s.phase) && !LinkLost(s, i) {
        SettleKeepsTrace(s, t, i);
        ActKeepsTrace(cfg, Settle(s, i), t, i, delivered);
      }
    case Ack(_, _, _, _, _) => AckKeepsTrace(s, t, e);
    case Restart(_) =>
  }

  lemma AckKeepsTrace(s: Startup, t: seq<Sent>, e: Event)
    requires e.Ack? && Consistent(s) && TraceInv(s, t, e.at)
    ensures TraceInv(OnAck(s, e.action, e.outcome, e.raw, e.source, e.at), t, e.at)
  {
  }

  lemma {:induction false} TraceInvAlways(cfg: Config, es: seq<Event>, now: Time)
    requires Monotone(es) && (es != [] ==> At(es[|es| - 1]) <= now)
    ensures TraceInv(Run(cfg, es), Trace(cfg, es), now)
  {
    if es != [] {
      var front, e := es[..|es| - 1], es[|es| - 1];
      TraceInvAlways(cfg, front, At(e));
      StepKeepsTrace(cfg, Run(cfg, front), Trace(cfg, front), e);
    }
  }

  /** Every flight's commands spell a prefix of GUIDED{1..3} ARM{1..3} TAKEOFF{1..3}
      with confirmations from zero in each block, so there are at most nine. */
  lemma {:induction false} StartupLanguage(cfg: Config, es: seq<Event>)
    requires Monotone(es)
    ensures Disciplined(Trace(cfg, es)) && |Trace(cfg, es)| <= 9
    ensures exists counts: seq<nat> :: |counts| <= 3 && Spells(counts, Trace(cfg, es))
  {
    var t := Trace(cfg, es);
    TraceInvAlways(cfg, es, if es == [] then 0 else At(es[|es| - 1]));
    DisciplinedIsBlocks(t);
    if t != [] { DisciplinedLength(t); }
  }

  // --- What completion means ---

  /** Where the current flight's history starts. */
  function FlightStart(es: seq<Event>): (k: nat)
    ensures k <= |es|
  {
    if es == [] then 0
    else if es[|es| - 1].Restart? then |es|
    else FlightStart(es[..|es| - 1])
  }

  predicate Sends(cfg: Config, s: Startup, e: Event, action: FlightAction, system: Byte)
    requires Consistent(s)
  {
    var r := Emitted(cfg, s, e);
    r.Some? && r.value.action == action && r.value.systemId == system
  }

  /** The acknowledgement accepts the very command that is being awaited. */
  predicate Accepts(s: Startup, e: Event, action: FlightAction, system: Byte) {
    e.Ack? && e.action == action && e.outcome == Accepted && e.source == system && AckMatches(s, action, system)
  }

  predicate Shows(e: Event) { e.Poll? && e.input.vehicle.connected && e.input.linkAccepted }

  /** The nine facts a completed startup rests on, in order: each of its three
      commands was sent, its acknowledgement awaited and accepted, and its effect seen. */
  predicate Milestone(cfg: Config, k: nat, s: Startup, e: Event, system: Byte)
    requires Consistent(s)
  {
    match k
    case 0 => Sends(cfg, s, e, SetGuidedMode, system)
    case 1 => Accepts(s, e, SetGuidedMode, system)
    case 2 => Shows(e) && e.input.vehicle.flightMode == Some(4)
    case 3 => Sends(cfg, s, e, Arm, system)
    case 4 => Accepts(s, e, Arm, system)
    case 5 => Shows(e) && e.input.vehicle.armed
    case 6 => Sends(cfg, s, e, Takeoff, system)
    case 7 => Accepts(s, e, Takeoff, system)
    case 8 =>
      Shows(e) && e.input.vehicle.armed && e.input.vehicle.relativeAltitude.Some? &&
      e.input.vehicle.relativeAltitude.value >= cfg.altitude - 0.35
    case _ => false
  }

  ghost predicate Reached(cfg: Config, es: seq<Event>, k: nat, at: nat, system: Byte) {
    at < |es| && Milestone(cfg, k, Run(cfg, es[..at]), es[at], system)
  }

  /** In the current flight and in this order; the poll that shows an effect may
      send the next command as well. */
  ghost predicate Chain(cfg: Config, es: seq<Event>, marks: seq<nat>, system: Byte) {
    && (forall k :: 0 <= k < |marks| ==> FlightStart(es) <= marks[k] && Reached(cfg, es, k, marks[k], system))
    && (forall i, j :: 0 <= i < j < |marks| ==> marks[i] <= marks[j])
  }

  function Progress(s: Startup): nat {
    match s.phase
    case SettingGuided => if s.commandAccepted then 2 else if s.attempt > 0 then 1 else 0
    case Arming => if s.commandAccepted then 5 else if s.attempt > 0 then 4 else 3
    case TakingOff => if s.commandAccepted then 8 else if s.attempt > 0 then 7 else 6
    case Completed => 9
    case _ => 0
  }

  /** An effect is seen when the startup settles in its next phase. */
  lemma SettleProgress(cfg: Config, s: Startup, i: Input, s0: Startup, e: Event)
    requires Consistent(s) && Consistent(s0) && !LinkLost(s, i) && e.Poll? && e.input == i
    ensures var t := Settle(s, i);
            var (p, p') := (Progress(s), Progress(t));
            && (p' == p || p' == 0 ||
                (p' == p + 1 && p in {2, 5} && s.systemId.Some? && Milestone(cfg, p, s0, e, s.systemId.value)))
            && (s.phase != WaitingForVehicle ==> t.systemId == s.systemId)
            && (s.phase == WaitingForVehicle ==> p' == 0)
  {
    SettledAfterTwo(s, i);
  }

  lemma ActProgress(cfg: Config, s: Startup, i: Input, delivered: bool)
    requires Consistent(s) && !LinkLost(s, i)
    ensures var (u, r) := Act(cfg, s, i);
            var s' := if r.Some? then OnSent(u, r.value.action, delivered) else u;
            var (p, p') := (Progress(s), Progress(s'));
            && (p' == p || p' == 0
                || (p' == p + 1 && p in {0, 3, 6} && r.Some? && s.systemId == Some(r.value.systemId)
                    && r.value.action == (if p == 0 then SetGuidedMode else if p == 3 then Arm else Takeoff))
                || (p' == 9 && p == 8 && s.systemId.Some? && i.vehicle.connected && i.linkAccepted
                    && i.vehicle.armed && AtAltitude(cfg, i.vehicle)))
            && s'.systemId == s.systemId
  {
  }

  /** One poll reaches at most two milestones: an effect and the next command. */
  lemma PollProgress(cfg: Config, s: Startup, e: Event)
    requires Consistent(s) && e.Poll?
    ensures var s' := Step(cfg, s, e);
            var (p, p') := (Progress(s), Progress(s'));
            && (p' == 0 || p <= p' <= p + 2)
            && (p' > p ==> s'.systemId.Some? && Milestone(cfg, p, s, e, s'.systemId.value))
            && (p' > p + 1 ==> Milestone(cfg, p + 1, s, e, s'.systemId.value))
            && (p > 0 && p' > 0 ==> s'.systemId == s.systemId)
  {
    var i := e.input;
    if !Terminal(s.phase) && !LinkLost(s, i) {
      var t := Settle(s, i);
      SettleProgress(cfg, s, i, s, e);
      assert !LinkLost(t, i) by { SettledAfterTwo(s, i); }
      ActProgress(cfg, t, i, e.delivered);
    }
  }

  lemma AckProgress(cfg: Config, s: Startup, e: Event)
    requires Consistent(s) && e.Ack?
    ensures var s' := Step(cfg, s, e);
            var (p, p') := (Progress(s), Progress(s'));
            && (p' == 0 || p' == p || p' == p + 1)
            && (p' > p ==> s.systemId.Some? && Milestone(cfg, p, s, e, s.systemId.value))
            && (p' > 0 ==> s'.systemId == s.systemId)
  {
  }

  lemma ChainStays(cfg: Config, es: seq<Event>, e: Event, marks: seq<nat>, system: Byte)
    requires !e.Restart? && Chain(cfg, es, marks, system)
    ensures Chain(cfg, es + [e], marks, system)
  {
    assert (es + [e])[..|es|] == es;
    forall k | 0 <= k < |marks| ensures Reached(cfg, es + [e], k, marks[k], system) {
      assert Reached(cfg, es, k, marks[k], system) && (es + [e])[..marks[k]] == es[..marks[k]];
    }
  }

  lemma {:induction false} ChainGrows(cfg: Config, es: seq<Event>, marks: seq<nat>, system: Byte)
    requires es != [] && !es[|es| - 1].Restart? && Chain(cfg, es, marks, system)
    requires Milestone(cfg, |marks|, Run(cfg, es[..|es| - 1]), es[|es| - 1], system)
    ensures Chain(cfg, es, marks + [|es| - 1], system)
  {
    assert Reached(cfg, es, |marks|, |es| - 1, system);
    assert FlightStart(es) <= |es| - 1;
  }

  lemma {:induction false} MilestonesReached(cfg: Config, es: seq<Event>)
    ensures var s := Run(cfg, es);
            Progress(s) > 0 ==>
              s.systemId.Some? &&
              exists marks: seq<nat> :: |marks| == Progress(s) && Chain(cfg, es, marks, s.systemId.value)
  {
    if es != [] && Progress(Run(cfg, es)) > 0 {
      var (front, e) := (es[..|es| - 1], es[|es| - 1]);
      assert es == front + [e];
      MilestonesReached(cfg, front);
      var (s, s') := (Run(cfg, front), Run(cfg, es));
      if e.Poll? { PollProgress(cfg, s, e); } else { AckProgress(cfg, s, e); }
      var marks: seq<nat> := [];
      var system := s'.systemId.value;
      if Progress(s) > 0 {
        marks :| |marks| == Progress(s) && Chain(cfg, front, marks, system);
      }
      ChainStays(cfg, front, e, marks, system);
      if Progress(s') > Progress(s) {
        ChainGrows(cfg, es, marks, system);
        marks := marks + [|es| - 1];
      }
      if Progress(s') > Progress(s) + 1 {
        ChainGrows(cfg, es, marks, system);
        marks := marks + [|es| - 1];
      }
      assert |marks| == Progress(s') && Chain(cfg, es, marks, system);
    }
  }

  /** A completed startup rests on three commands to the one pinned vehicle, each
      sent, then accepted while its acknowledgement was awaited, then confirmed by
      telemetry: GUIDED mode, armed, and armed within tolerance of the takeoff altitude. */
  lemma {:induction false} CompletedIsConfirmed(cfg: Config, es: seq<Event>)
    requires Run(cfg, es).phase == Completed
    ensures Run(cfg, es).systemId.Some?
    ensures exists marks: seq<nat> :: |marks| == 9 && Chain(cfg, es, marks, Run(cfg, es).systemId.value)
  {
    MilestonesReached(cfg, es);
  }

  // --- Bounded time ---

  function LastPoll(es: seq<Event>): Option<Time> {
    if es == [] then None
    else if es[|es| - 1].Poll? then Some(At(es[|es| - 1]))
    else LastPoll(es[..|es| - 1])
  }

  /** Consecutive polls are at most delta apart. */
  predicate Paced(es: seq<Event>, delta: Time) {
    es != [] ==>
      var front, e := es[..|es| - 1], es[|es| - 1];
      && Paced(front, delta)
      && (e.Poll? && LastPoll(front).Some? ==> At(e) <= LastPoll(front).value + delta)
  }

  /** When the current flight left WaitingForVehicle. */
  function Departure(cfg: Config, es: seq<Event>): Option<Time> {
    if es == [] then None
    else
      var front, e := es[..|es| - 1], es[|es| - 1];
      if e.Restart? then None
      else if Departure(cfg, front).Some? then Departure(cfg, front)
      else if Run(cfg, front).phase == WaitingForVehicle && Run(cfg, es).phase != WaitingForVehicle then Some(At(e))
      else None
  }

  /** The latest phase deadline each phase can carry after leaving at t0. */
  function Latest(phase: Phase, t0: Time, delta: Time): Time {
    match phase
    case WaitingForReadiness => t0 + READINESS_TIMEOUT
    case SettingGuided => t0 + READINESS_TIMEOUT + MODE_TIMEOUT
    case Arming => t0 + READINESS_TIMEOUT + MODE_TIMEOUT + delta + ARMING_TIMEOUT
    case _ => t0 + READINESS_TIMEOUT + MODE_TIMEOUT + ARMING_TIMEOUT + 2 * delta + TAKEOFF_TIMEOUT
  }

  ghost predicate Punctual(s: Startup, left: Option<Time>, polled: Option<Time>, delta: Time) {
    && (s.phase == WaitingForVehicle ==> left.None?)
    && (s.phase == WaitingForReadiness || Commanding(s.phase) ==>
          left.Some? && polled.Some? && polled.value < s.phaseDeadline <= Latest(s.phase, left.value, delta))
  }

  lemma SettleDeadlines(s: Startup, i: Input, left: Option<Time>, polled: Option<Time>, delta: Time)
    requires delta >= 0 && Punctual(s, left, polled, delta)
    requires polled.Some? ==> i.now <= polled.value + delta
    ensures var t := Settle(s, i);
            (t.phase == WaitingForReadiness || Commanding(t.phase) ==>
               t.phaseDeadline <= Latest(t.phase, if left.Some? then left.value else i.now, delta))
  {
    SettledAfterTwo(s, i);
  }

  /** Acting in a settled phase ends the startup or keeps a phase whose deadline is still ahead. */
  lemma ActDeadlines(cfg: Config, t: Startup, i: Input, delivered: bool)
    requires Consistent(t)
    ensures var (u, r) := Act(cfg, t, i);
            var s' := if r.Some? then OnSent(u, r.value.action, delivered) else u;
            Terminal(s'.phase) ||
            (s'.phase == t.phase && s'.phaseDeadline == t.phaseDeadline &&
             (t.phase != WaitingForVehicle ==> i.now < t.phaseDeadline))
  {
  }

  function Left(left: Option<Time>, before: Phase, after: Phase, now: Time): Option<Time> {
    if left.None? && before == WaitingForVehicle && after != WaitingForVehicle then Some(now) else left
  }

  /** From a settled state t to the state s' after acting. */
  lemma ActPunctual(s: Startup, t: Startup, s': Startup, now: Time, left: Option<Time>, delta: Time)
    requires (s.phase == WaitingForVehicle ==> left.None?) && (left.None? ==> s.phase == WaitingForVehicle)
    requires t.phase == WaitingForReadiness || Commanding(t.phase) ==>
               t.phaseDeadline <= Latest(t.phase, if left.Some? then left.value else now, delta)
    requires Terminal(s'.phase) ||
             (s'.phase == t.phase && s'.phaseDeadline == t.phaseDeadline &&
              (t.phase != WaitingForVehicle ==> now < t.phaseDeadline))
    requires s.phase != WaitingForVehicle ==> t.phase != WaitingForVehicle
    ensures Punctual(s', Left(left, s.phase, s'.phase, now), Some(now), delta)
  {
  }

  lemma SettledStaysAway(s: Startup, i: Input)
    ensures s.phase != WaitingForVehicle ==> Settle(s, i).phase != WaitingForVehicle
  {
  }

  lemma PollPunctual(cfg: Config, s: Startup, i: Input, delivered: bool, left: Option<Time>, polled: Option<Time>,
                     delta: Time)
    requires Consistent(s) && delta >= 0 && Punctual(s, left, polled, delta)
    requires polled.Some? ==> i.now <= polled.value + delta
    ensures var s' := Step(cfg, s, Poll(i, delivered));
            Punctual(s', Left(left, s.phase, s'.phase, i.now), Some(i.now), delta)
  {
    if !Terminal(s.phase) && !LinkLost(s, i) {
      SettledStaysAway(s, i);
      SettleDeadlines(s, i, left, polled, delta);
      ActDeadlines(cfg, Settle(s, i), i, delivered);
      ActPunctual(s, Settle(s, i), Step(cfg, s, Poll(i, delivered)), i.now, left, delta);
    }
  }

  lemma {:induction false} PunctualAlways(cfg: Config, es: seq<Event>, delta: Time)
    requires delta >= 0 && Paced(es, delta)
    ensures Punctual(Run(cfg, es), Departure(cfg, es), LastPoll(es), delta)
  {
    if es != [] {
      var front, e := es[..|es| - 1], es[|es| - 1];
      PunctualAlways(cfg, front, delta);
      if e.Poll? {
        PollPunctual(cfg, Run(cfg, front), e.input, e.delivered, Departure(cfg, front), LastPoll(front), delta);
      }
    }
  }

  /** With polls at most delta apart, any poll made 155 s + 2 delta or more after
      the controller left WaitingForVehicle leaves it completed or failed. */
  lemma {:induction false} StartupTerminates(cfg: Config, es: seq<Event>, delta: Time)
    requires delta >= 0 && Paced(es, delta)
    requires es != [] && es[|es| - 1].Poll? && Departure(cfg, es).Some?
    requires At(es[|es| - 1]) >= Departure(cfg, es).value + 155_000_000_000 + 2 * delta
    ensures Terminal(Run(cfg, es).phase)
  {
    PunctualAlways(cfg, es, delta);
  }

  /** Every command goes to the vehicle pinned when the flight left WaitingForVehicle;
      it is sent only to a connected vehicle with the link failsafe accepted. */
  lemma CommandsArePinned(cfg: Config, s: Startup, i: Input)
    requires Consistent(s)
    ensures var (s', r) := Update(cfg, s, i);
            r.Some? ==>
              && i.vehicle.connected && i.linkAccepted
              && s'.systemId == Some(r.value.systemId) && Commanding(s'.phase)
              && Expected(s'.phase) == Some(r.value.action)
              && (s.phase != WaitingForVehicle ==> s.systemId == s'.systemId)
  {
    SettledAfterTwo(s, i);
  }

  /** The first vehicle a poll of the current flight saw connected with an id. */
  function FirstSeen(es: seq<Event>): Option<Byte> {
    if es == [] || es[|es| - 1].Restart? then None
    else
      var (earlier, e) := (FirstSeen(es[..|es| - 1]), es[|es| - 1]);
      if earlier.Some? then earlier
      else if e.Poll? && e.input.vehicle.connected then e.input.vehicle.systemId
      else None
  }

  /** The flight is pinned to the first vehicle it saw and to no other, and it
      waits exactly as long as it has seen none. */
  lemma {:induction false} PinnedToTheFirst(cfg: Config, es: seq<Event>)
    ensures Run(cfg, es).systemId.Some? ==> Run(cfg, es).systemId == FirstSeen(es)
    ensures Run(cfg, es).phase == WaitingForVehicle <==> cfg.enabled && FirstSeen(es).None?
  {
    if es != [] {
      var (front, e) := (es[..|es| - 1], es[|es| - 1]);
      PinnedToTheFirst(cfg, front);
      if e.Poll? {
        PollPins(cfg, Run(cfg, front), e.input, e.delivered);
      }
    }
  }

  lemma PollPins(cfg: Config, s: Startup, i: Input, delivered: bool)
    requires Consistent(s)
    ensures var s' := Step(cfg, s, Poll(i, delivered));
            && (s.phase != WaitingForVehicle ==> s'.systemId == s.systemId && s'.phase != WaitingForVehicle)
            && (s.phase == WaitingForVehicle ==>
                  && (s'.systemId == s.systemId || s'.systemId == i.vehicle.systemId)
                  && (s'.phase == WaitingForVehicle <==> !(i.vehicle.connected && i.vehicle.systemId.Some?)))
  {
    SettledAfterTwo(s, i);
  }

  // --- The component ---

  class FlightStartupController {
    const cfg: Config
    var phase: Phase
    var systemId: Option<Byte>
    var attempt: nat
    var awaitingAck: bool
    var commandAccepted: bool
    var ackDeadline: Time
    var phaseDeadline: Time
    var failure: Option<Byte>

    function State(): Startup
      reads this
    {
      Startup(phase, systemId, attempt, awaitingAck, commandAccepted, ackDeadline, phaseDeadline, failure)
    }

    ghost predicate Valid()
      reads this
    {
      Consistent(State())
    }

    constructor Init(cfg: Config)
      ensures this.cfg == cfg && Valid() && State() == Initial(cfg)
    {
      this.cfg := cfg;
      phase, systemId, attempt, awaitingAck, commandAccepted := Disabled, None, 0, false, false;
      ackDeadline, phaseDeadline, failure := 0, 0, None;
      new;
      if cfg.enabled {
        Restart();
      }
    }

    /** The source's constructor refuses an altitude that is not finite and positive. */
    static method Create(enabled: bool, altitude: Double) returns (c: FlightStartupController?)
      ensures c == null <==> !(altitude.Num? && altitude.value > 0.0)
      ensures c != null ==>
                fresh(c) && c.cfg == Config(enabled, altitude.value) && c.Valid() && c.State() == Initial(c.cfg)
    {
      if !altitude.Num? || altitude.value <= 0.0 {
        return null;
      }
      c := new FlightStartupController.Init(Config(enabled, altitude.value));
    }

    method Restart()
      modifies this
      ensures Valid() && State() == Initial(cfg)
    {
      phase := if cfg.enabled then WaitingForVehicle else Disabled;
      systemId, attempt, awaitingAck, commandAccepted := None, 0, false, false;
      ackDeadline, phaseDeadline, failure := 0, 0, None;
    }

    method EnterPhase(next: Phase, now: Time)
      requires next == WaitingForReadiness || Commanding(next)
      modifies this
      ensures State() == Enter(old(State()), next, now)
    {
      phase, attempt, awaitingAck, commandAccepted := next, 0, false, false;
      match phase
      case WaitingForReadiness => phaseDeadline := now + READINESS_TIMEOUT;
      case SettingGuided => phaseDeadline := now + MODE_TIMEOUT;
      case Arming => phaseDeadline := now + ARMING_TIMEOUT;
      case TakingOff => phaseDeadline := now + TAKEOFF_TIMEOUT;
    }

    method FailNow()
      modifies this
      ensures State() == Fail(old(State()))
    {
      phase, awaitingAck, commandAccepted := Failed, false, false;
    }

    method UpdateCommand(action: FlightAction, altitude: real, now: Time) returns (r: Option<FlightRequest>)
      requires Valid() && Commanding(phase)
      modifies this
      ensures (State(), r) == Command(old(State()), action, altitude, now)
    {
      if commandAccepted {
        return None;
      }
      if awaitingAck {
        if now < ackDeadline {
          return None;
        }
        awaitingAck := false;
      }
      if attempt >= MAX_ATTEMPTS {
        FailNow();
        return None;
      }
      var confirmation := attempt;
      attempt := attempt + 1;
      awaitingAck := true;
      ackDeadline := now + ACK_TIMEOUT;
      r := Some(CommandRequest(action, systemId.value, confirmation, altitude));
    }

    /** One pass of the switch: either a phase change and another pass, or the end of the poll. */
    method Pass(i: Input) returns (again: bool, r: Option<FlightRequest>)
      requires Valid()
      modifies this
      ensures Valid()
      ensures again ==> State() == Advance(old(State()), i) != old(State()) && r.None?
      ensures !again ==> Advance(old(State()), i) == old(State()) && (State(), r) == Act(cfg, old(State()), i)
    {
      r, again := None, false;
      match phase {
        case WaitingForVehicle =>
          if !i.vehicle.connected || i.vehicle.systemId.None? {
            return;
          }
          if i.vehicle.autopilotType != Some(ARDUPILOT) || !IsMulticopter(i.vehicle.vehicleType) {
            FailNow();
            return;
          }
          systemId := i.vehicle.systemId;
          EnterPhase(WaitingForReadiness, i.now);
          again := true;
        case WaitingForReadiness =>
          if i.now >= phaseDeadline {
            FailNow();
            return;
          }
          if i.telemetryReady && i.vehicle.armable && !i.vehicle.armed && i.linkAccepted &&
             i.vehicle.relativeAltitude.Some?
          {
            EnterPhase(SettingGuided, i.now);
            again := true;
          }
        case SettingGuided =>
          if commandAccepted && i.vehicle.flightMode == Some(GUIDED_MODE) {
            EnterPhase(Arming, i.now);
            return true, None;
          }
          if i.now >= phaseDeadline {
            FailNow();
            return;
          }
          r := UpdateCommand(SetGuidedMode, 0.0, i.now);
        case Arming =>
          if commandAccepted && i.vehicle.armed {
            EnterPhase(TakingOff, i.now);
            return true, None;
          }
          if i.now >= phaseDeadline {
            FailNow();
            return;
          }
          r := UpdateCommand(Arm, 0.0, i.now);
        case TakingOff =>
          if !i.vehicle.armed && commandAccepted {
            FailNow();
            return;
          }
          if commandAccepted && AtAltitude(cfg, i.vehicle) {
            phase, attempt, awaitingAck := Completed, 0, false;
            return;
          }
          if i.now >= phaseDeadline {
            FailNow();
            return;
          }
          r := UpdateCommand(Takeoff, cfg.altitude, i.now);
        case _ =>
      }
    }

    /** The source's bounded transition loop computes Update: it never gets past
        its third pass, so its "too many immediate transitions" failure, reached
        by using up all eight, does not happen. */
    method Poll(i: Input) returns (r: Option<FlightRequest>)
      requires Valid()
      modifies this
      ensures Valid() && (State(), r) == Update(cfg, old(State()), i)
    {
      if phase == Disabled || phase == Completed || phase == Failed {
        return None;
      }
      if phase != WaitingForVehicle && !i.vehicle.connected {
        FailNow();
        return None;
      }
      if phase != WaitingForVehicle && phase != WaitingForReadiness && !i.linkAccepted {
        FailNow();
        return None;
      }
      ghost var start := State();
      SettledAfterTwo(start, i);
      for transition := 0 to 8
        invariant Valid() && transition <= 2
        invariant State() == if transition == 0 then start
                             else if transition == 1 then Advance(start, i) else Settle(start, i)
        invariant transition == 1 ==> start != Advance(start, i)
      {
        var again;
        again, r := Pass(i);
        if !again {
          return;
        }
      }
      assert false;
    }

    method OnActionSent(action: FlightAction, sent: bool)
      requires Valid()
      modifies this
      ensures Valid() && State() == OnSent(old(State()), action, sent)
    {
      var expected := Expected(phase);
      if expected.None? || action != expected.value || sent {
        return;
      }
      awaitingAck := false;
      if attempt >= MAX_ATTEMPTS {
        FailNow();
      }
    }

    method OnCommandAck(action: FlightAction, outcome: AckOutcome, raw: Byte, source: Byte, now: Time)
      requires Valid()
      modifies this
      ensures Valid() && State() == OnAck(old(State()), action, outcome, raw, source, now)
    {
      var expected := Expected(phase);
      if expected.None? || action != expected.value || !awaitingAck || systemId.None? || source != systemId.value {
        return;
      }
      match outcome {
        case Accepted =>
          awaitingAck := false;
          commandAccepted := true;
        case InProgress =>
          ackDeadline := now + ACK_TIMEOUT;
        case Rejected =>
          failure := Some(raw);
          FailNow();
      }
    }
  }
}
