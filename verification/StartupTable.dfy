/** The startup as a decision table: what each poll, acknowledgement and write
    result does, with every time in nanoseconds, every identifier and every limit
    written out, and without the two-step settling of the machine. */
module StartupTable {
  import opened FlightTypes
  import opened FlightStartup

  /** An ArduPilot multicopter. */
  predicate Usable(v: Vehicle) {
    v.autopilotType == Some(3) && v.vehicleType.Some? && v.vehicleType.value in {2, 3, 4, 13, 14, 15}
  }

  predicate ReadyToFly(i: Input) {
    i.telemetryReady && i.linkAccepted && i.vehicle.armable && !i.vehicle.armed && i.vehicle.relativeAltitude.Some?
  }

  /** The n-th GUIDED, ARM or TAKEOFF of a phase goes out and its answer is awaited for 2 s. */
  predicate SendsCommand(cfg: Config, id: Option<Byte>, phase: Phase, n: nat, deadline: Time, failure: Option<Byte>,
                         now: Time, s': Startup, r: Option<FlightRequest>) {
    && id.Some? && 1 <= n <= 3
    && s' == Startup(phase, id, n, true, false, now + 2_000_000_000, deadline, failure)
    && r == Some(FlightRequest(
              if phase == SettingGuided then SetGuidedMode else if phase == Arming then Arm else Takeoff,
              id.value, n - 1, if phase == TakingOff then cfg.altitude else 0.0,
              BodyPosition(Num(0.0), Num(0.0), Num(0.0)), 0))
  }

  predicate FailsNow(s': Startup, r: Option<FlightRequest>) {
    s'.phase == Failed && !s'.awaitingAck && !s'.commandAccepted && r.None?
  }

  predicate Waits(s: Startup, s': Startup, r: Option<FlightRequest>) { s' == s && r.None? }

  /** A command phase whose effect has not been seen yet. */
  predicate Pursues(cfg: Config, s: Startup, now: Time, s': Startup, r: Option<FlightRequest>) {
    if s.commandAccepted || (s.awaitingAck && now < s.ackDeadline) then Waits(s, s', r)
    else if s.attempt >= 3 then FailsNow(s', r)
    else SendsCommand(cfg, s.systemId, s.phase, s.attempt + 1, s.phaseDeadline, s.failure, now, s', r)
  }

  /** What a poll with this input turns the startup into and sends. */
  predicate PollDecides(cfg: Config, s: Startup, i: Input, s': Startup, r: Option<FlightRequest>) {
    var (v, now) := (i.vehicle, i.now);
    match s.phase
    case WaitingForVehicle =>
      if !v.connected || v.systemId.None? then Waits(s, s', r)
      else if !Usable(v) then FailsNow(s', r)
      else if ReadyToFly(i) then
        SendsCommand(cfg, v.systemId, SettingGuided, 1, now + 10_000_000_000, s.failure, now, s', r)
      else
        s' == Startup(WaitingForReadiness, v.systemId, 0, false, false, s.ackDeadline, now + 90_000_000_000, s.failure)
        && r.None?
    case WaitingForReadiness =>
      if !v.connected || now >= s.phaseDeadline then FailsNow(s', r)
      else if !ReadyToFly(i) then Waits(s, s', r)
      else SendsCommand(cfg, s.systemId, SettingGuided, 1, now + 10_000_000_000, s.failure, now, s', r)
    case SettingGuided =>
      if !v.connected || !i.linkAccepted then FailsNow(s', r)
      else if s.commandAccepted && v.flightMode == Some(4) then
        SendsCommand(cfg, s.systemId, Arming, 1, now + 10_000_000_000, s.failure, now, s', r)
      else if now >= s.phaseDeadline then FailsNow(s', r)
      else Pursues(cfg, s, now, s', r)
    case Arming =>
      if !v.connected || !i.linkAccepted then FailsNow(s', r)
      else if s.commandAccepted && v.armed then
        SendsCommand(cfg, s.systemId, TakingOff, 1, now + 45_000_000_000, s.failure, now, s', r)
      else if now >= s.phaseDeadline then FailsNow(s', r)
      else Pursues(cfg, s, now, s', r)
    case TakingOff =>
      if !v.connected || !i.linkAccepted || (s.commandAccepted && !v.armed) then FailsNow(s', r)
      else if s.commandAccepted && v.relativeAltitude.Some? && v.relativeAltitude.value >= cfg.altitude - 0.35 then
        s' == s.(phase := Completed, attempt := 0, awaitingAck := false) && r.None?
      else if now >= s.phaseDeadline then FailsNow(s', r)
      else Pursues(cfg, s, now, s', r)
    case _ => Waits(s, s', r)
  }

  lemma WaitingDecides(cfg: Config, s: Startup, i: Input)
    requires Consistent(s) && s.phase in {WaitingForVehicle, WaitingForReadiness}
    ensures var (s', r) := Update(cfg, s, i);
            PollDecides(cfg, s, i, s', r)
  {
    SettledAfterTwo(s, i);
  }

  lemma CommandingDecides(cfg: Config, s: Startup, i: Input)
    requires Consistent(s) && Commanding(s.phase)
    ensures var (s', r) := Update(cfg, s, i);
            PollDecides(cfg, s, i, s', r)
  {
    SettledAfterTwo(s, i);
  }

  /** Every poll follows the table. */
  lemma PollFollowsTable(cfg: Config, s: Startup, i: Input)
    requires Consistent(s)
    ensures var (s', r) := Update(cfg, s, i);
            PollDecides(cfg, s, i, s', r)
  {
    if s.phase in {WaitingForVehicle, WaitingForReadiness} {
      WaitingDecides(cfg, s, i);
    } else if Commanding(s.phase) {
      CommandingDecides(cfg, s, i);
    }
  }

  /** What any command says: its phase's action for the pinned vehicle, the number of
      earlier attempts, and the takeoff altitude in TAKEOFF alone. */
  lemma CommandSays(cfg: Config, s: Startup, i: Input)
    requires Consistent(s) && Update(cfg, s, i).1.Some?
    ensures var (s', r) := (Update(cfg, s, i).0, Update(cfg, s, i).1.value);
            && s'.phase in {SettingGuided, Arming, TakingOff}
            && r.action ==
               (if s'.phase == SettingGuided then SetGuidedMode else if s'.phase == Arming then Arm else Takeoff)
            && s'.systemId == Some(r.systemId)
            && r.confirmation == s'.attempt - 1 && s'.attempt == (if s'.phase == s.phase then s.attempt else 0) + 1
            && r.confirmation < 3 && r.altitude == (if r.action == Takeoff then cfg.altitude else 0.0)
            && r.position == BodyPosition(Num(0.0), Num(0.0), Num(0.0)) && r.timeUsec == 0
  {
    PollFollowsTable(cfg, s, i);
  }

  /** A failed write of the phase's command frees the attempt, or fails the third. */
  predicate WriteDecides(s: Startup, action: FlightAction, sent: bool, s': Startup) {
    var own := (s.phase == SettingGuided && action == SetGuidedMode) || (s.phase == Arming && action == Arm) ||
               (s.phase == TakingOff && action == Takeoff);
    if !own || sent then s' == s
    else if s.attempt >= 3 then FailsNow(s', None)
    else s' == s.(awaitingAck := false)
  }

  lemma WriteFollowsTable(s: Startup, action: FlightAction, sent: bool)
    ensures WriteDecides(s, action, sent, OnSent(s, action, sent))
  {
  }

  /** The answer to the command of the phase: result 0 accepts it, 5 grants 2 s more, anything else fails. */
  predicate AckDecides(s: Startup, result: Byte, now: Time, s': Startup) {
    if result == 0 then s' == s.(awaitingAck := false, commandAccepted := true)
    else if result == 5 then s' == s.(ackDeadline := now + 2_000_000_000)
    else s' == s.(phase := Failed, awaitingAck := false, commandAccepted := false, failure := Some(result))
  }

  /** The number is that of the awaited command, from the pinned system. */
  predicate Awaited(s: Startup, command: int, source: Byte) {
    && s.awaitingAck && s.systemId == Some(source)
    && ((s.phase == SettingGuided && command == 176) || (s.phase == Arming && command == 400) ||
        (s.phase == TakingOff && command == 22))
  }

  /** A startup that is not enabled never leaves that, whatever it is told. */
  lemma {:induction false} DisabledStays(cfg: Config, es: seq<Event>)
    requires !cfg.enabled
    ensures Run(cfg, es) == Startup(Disabled, None, 0, false, false, 0, 0, None)
  {
    if es != [] {
      DisabledStays(cfg, es[..|es| - 1]);
    }
  }
}
