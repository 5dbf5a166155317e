/** Guidance and landing as a decision table: what each poll does, with every time
    in nanoseconds and every limit written out. */
module RuntimeTable {
  import opened FlightTypes
  import G = Guidance
  import opened Autonomy
  import H = AutonomyHistory
  import S = FlightStartup

  /** A finite position below the vehicle. */
  predicate Followable(target: Option<BodyPosition>) {
    && target.Some? && target.value.forward.Num? && target.value.right.Num?
    && target.value.down.Num? && target.value.down.value > 0.0
  }

  predicate Fails(s: Runtime, s': Runtime, a: Actions) {
    s'.phase == Failed && !s'.awaitingAck && !s'.targetActive && a == Actions(None, None)
  }

  predicate Waits(s: Runtime, s': Runtime, a: Actions) { s' == s && a == Actions(None, None) }

  /** The whole microseconds in a time, towards zero. */
  predicate WholeMicroseconds(usec: int, now: Time) {
    if now >= 0 then usec * 1000 <= now < (usec + 1) * 1000 else (usec - 1) * 1000 < now <= usec * 1000
  }

  /** As an unsigned 64-bit field carries them. */
  ghost predicate IsMicroseconds(field: int, now: Time) {
    exists usec :: WholeMicroseconds(usec, now) && field == usec % 0x1_0000_0000_0000_0000
  }

  ghost predicate IsTarget(r: FlightRequest, id: Byte, position: BodyPosition, now: Time) {
    && r.action == LandingTarget && r.systemId == id && r.position == position
    && r.confirmation == 0 && r.altitude == 0.0 && IsMicroseconds(r.timeUsec, now)
  }

  /** LAND where t would be the state without it: nothing while an answer may still
      come, at most three times, then the flight fails. */
  predicate Lands(t: Runtime, id: Byte, now: Time, s': Runtime, land: Option<FlightRequest>) {
    if t.awaitingAck && now < t.ackDeadline then s' == t && land.None?
    else if t.landAttempt >= 3 then s' == t.(phase := Failed, awaitingAck := false, targetActive := false) && land.None?
    else
      && s' == t.(landAttempt := t.landAttempt + 1, awaitingAck := true, ackDeadline := now + 2_000_000_000)
      && land == Some(FlightRequest(Land, id, t.landAttempt, 0.0, BodyPosition(Num(0.0), Num(0.0), Num(0.0)), 0))
  }

  /** No target to follow: after the loss timeout the vehicle lands where it is. */
  predicate WithoutTarget(cfg: Config, s: Runtime, i: Input, s': Runtime, a: Actions)
    requires i.vehicle.systemId.Some?
  {
    var since := if s.missingSince.Some? then s.missingSince.value else i.now;
    var t := s.(systemId := i.vehicle.systemId, status := if i.target.None? then G.NoIntent else G.InvalidTarget,
                targetActive := false, landAfter := None, nextTarget := i.now, missingSince := Some(since));
    && a.target.None?
    && if s.phase == Active && i.now - since >= cfg.landAfterLoss
       then Lands(t, i.vehicle.systemId.value, i.now, s', a.land)
       else s' == t && a.land.None?
  }

  /** A target to follow: sent at once when it appears and every 200 ms from then on;
      a second after it appeared LAND is asked for. */
  ghost predicate WithTarget(s: Runtime, i: Input, s': Runtime, a: Actions)
    requires i.vehicle.systemId.Some? && i.target.Some?
  {
    var (id, appears) := (i.vehicle.systemId.value, s.phase == Active && s.landAfter.None?);
    var sends := appears || i.now >= s.nextTarget;
    var landAfter := if appears then Some(i.now + 1_000_000_000) else s.landAfter;
    var t := s.(systemId := Some(id), status := G.Allowed, missingSince := None, landAfter := landAfter,
                nextTarget := if sends then i.now + 200_000_000 else s.nextTarget);
    && (if sends then a.target.Some? && IsTarget(a.target.value, id, i.target.value, i.now) else a.target.None?)
    && if s.phase == Active && landAfter.Some? && i.now >= landAfter.value
       then Lands(t, id, i.now, s', a.land)
       else s' == t && a.land.None?
  }

  /** In flight, before or after LAND was accepted. */
  ghost predicate FlightDecides(cfg: Config, s: Runtime, i: Input, s': Runtime, a: Actions) {
    var (v, landing) := (i.vehicle, s.phase == Landing);
    if !v.connected || v.systemId.None? || !i.linkAccepted || (!landing && !v.armed) then Fails(s, s', a)
    else if !v.armed then
      s' == s.(phase := Completed, systemId := v.systemId, targetActive := false) && a == Actions(None, None)
    else if landing && i.now >= s.landingDeadline then Fails(s, s', a)
    else if landing && v.relativeAltitude.Some? && v.relativeAltitude.value <= 0.20 then
      s' == s.(systemId := v.systemId, targetActive := false) && a == Actions(None, None)
    else if Followable(i.target) then WithTarget(s, i, s', a)
    else WithoutTarget(cfg, s, i, s', a)
  }

  ghost predicate PollDecides(cfg: Config, s: Runtime, i: Input, s': Runtime, a: Actions) {
    match s.phase
    case WaitingForStartup =>
      if i.startup == S.Failed || (i.startup == S.Completed && !i.linkAccepted) then Fails(s, s', a)
      else if i.startup != S.Completed then Waits(s, s', a)
      else FlightDecides(cfg, s.(phase := Active, missingSince := Some(i.now), nextTarget := i.now), i, s', a)
    case Active => FlightDecides(cfg, s, i, s', a)
    case Landing => FlightDecides(cfg, s, i, s', a)
    case _ => Waits(s, s', a)
  }

  lemma MicrosecondsAreWhole(now: Time)
    ensures IsMicroseconds(Microseconds(now), now)
  {
    var whole := if now >= 0 then now / 1000 else -(-now / 1000);
    assert WholeMicroseconds(whole, now);
  }

  lemma LandCommandDecides(t: Runtime, id: Byte, now: Time)
    requires Consistent(t) && t.phase == Active && t.systemId == Some(id)
    ensures var (s', land) := LandCommand(t, now);
            Lands(t, id, now, s', land)
  {
  }

  lemma GuideWithout(cfg: Config, s: Runtime, i: Input)
    requires Consistent(s) && (s.phase == Active || s.phase == Landing) && i.vehicle.systemId.Some?
    requires !Followable(i.target)
    ensures var (s', a) := Guide(cfg, s.(systemId := i.vehicle.systemId, status := G.StatusFor(i.target)), i);
            WithoutTarget(cfg, s, i, s', a)
  {
    var t := s.(systemId := i.vehicle.systemId, status := G.StatusFor(i.target));
    if s.phase == Active {
      LandCommandDecides(Lost(t, i.now), i.vehicle.systemId.value, i.now);
    }
  }

  lemma GuideWith(cfg: Config, s: Runtime, i: Input)
    requires Consistent(s) && (s.phase == Active || s.phase == Landing) && i.vehicle.systemId.Some?
    requires Followable(i.target)
    ensures var (s', a) := Guide(cfg, s.(systemId := i.vehicle.systemId, status := G.StatusFor(i.target)), i);
            WithTarget(s, i, s', a)
  {
    MicrosecondsAreWhole(i.now);
    var t := Seen(s.(systemId := i.vehicle.systemId, status := G.StatusFor(i.target)), i.now);
    if s.phase == Active {
      LandCommandDecides(t, i.vehicle.systemId.value, i.now);
      LandCommandDecides(t.(nextTarget := i.now + TARGET_INTERVAL), i.vehicle.systemId.value, i.now);
    }
  }

  lemma FlyFollowsTable(cfg: Config, s: Runtime, i: Input)
    requires Consistent(s) && (s.phase == Active || s.phase == Landing)
    ensures var (s', a) := Fly(cfg, s, i);
            FlightDecides(cfg, s, i, s', a)
  {
    if i.vehicle.systemId.Some? {
      if Followable(i.target) { GuideWith(cfg, s, i); } else { GuideWithout(cfg, s, i); }
    }
  }

  /** Every poll follows the table. */
  lemma PollFollowsTable(cfg: Config, s: Runtime, i: Input)
    requires Consistent(s)
    ensures var (s', a) := Update(cfg, s, i);
            PollDecides(cfg, s, i, s', a)
  {
    if s.phase == Active || s.phase == Landing || (s.phase == WaitingForStartup && i.startup == S.Completed) {
      FlyFollowsTable(cfg, Activate(s, i), i);
    }
  }

  /** The result of a write: guidance is active while it gets out; a LAND that does
      not frees the attempt, or fails the third. */
  predicate WriteDecides(s: Runtime, action: FlightAction, sent: bool, s': Runtime) {
    if action == LandingTarget then s' == s.(targetActive := sent)
    else if action != Land || sent then s' == s
    else if s.landAttempt >= 3 then s' == s.(phase := Failed, awaitingAck := false, targetActive := false)
    else s' == s.(awaitingAck := false)
  }

  lemma WriteFollowsTable(s: Runtime, action: FlightAction, sent: bool)
    ensures WriteDecides(s, action, sent, OnSent(s, action, sent))
  {
  }

  /** The answer to LAND: result 0 starts the landing and its 90 s, 5 grants 2 s more, anything else fails. */
  predicate AckDecides(s: Runtime, result: Byte, now: Time, s': Runtime) {
    if result == 0 then s' == s.(awaitingAck := false, phase := Landing, landingDeadline := now + 90_000_000_000)
    else if result == 5 then s' == s.(ackDeadline := now + 2_000_000_000)
    else s' == s.(phase := Failed, awaitingAck := false, targetActive := false, failure := Some(result))
  }

  predicate Awaited(s: Runtime, command: int, source: Byte) {
    s.awaitingAck && s.systemId == Some(source) && command == 21
  }

  // --- Guidance near the ground ---

  predicate LowAltitude(v: Vehicle) { v.relativeAltitude.Some? && v.relativeAltitude.value <= 0.20 }

  /** During a landing, less than 90 s after LAND was accepted, a poll that finds the
      armed vehicle at or below 0.20 m sends nothing, ends guidance and goes on
      landing. At any other height, known or not, a followable target is sent exactly
      if none was sent in the last 200 ms of its streak. */
  lemma {:induction false} LandingGuidance(cfg: Config, es: seq<Event>, e: Event)
    requires e.Poll? && Monotone(es + [e]) && Run(cfg, es).phase == Landing
    requires var accepted := H.LandAcceptedAt(cfg, es);
             accepted.Some? ==> e.input.now < accepted.value + 90_000_000_000
    requires var v := e.input.vehicle; v.connected && v.armed && v.systemId.Some? && e.input.linkAccepted
    ensures H.LandAcceptedAt(cfg, es).Some?
    ensures var (a, s', sent) := (Emitted(cfg, Run(cfg, es), e), Run(cfg, es + [e]), H.StreakTargets(cfg, es));
            if LowAltitude(e.input.vehicle) then a == Actions(None, None) && s'.phase == Landing && !s'.targetActive
            else Followable(e.input.target) ==>
                   (a.target.Some? <==> sent == [] || e.input.now >= sent[|sent| - 1] + 200_000_000)
  {
    var s := Run(cfg, es);
    H.LandingInvAlways(cfg, es);
    PollFollowsTable(cfg, s, e.input);
    RunStep(cfg, es, e);
    if !LowAltitude(e.input.vehicle) && Followable(e.input.target) {
      SupervisedLanding(s, e.input);
      H.TargetsExactlyAtInterval(cfg, es, e);
    }
  }

  lemma RunStep(cfg: Config, es: seq<Event>, e: Event)
    ensures Run(cfg, es + [e]) == Step(cfg, Run(cfg, es), e)
  {
    assert (es + [e])[..|es|] == es;
  }

  lemma SupervisedLanding(s: Runtime, i: Input)
    requires s.phase == Landing && i.now < s.landingDeadline && !LowAltitude(i.vehicle) && Followable(i.target)
    requires i.vehicle.connected && i.vehicle.armed && i.vehicle.systemId.Some? && i.linkAccepted
    ensures Supervisable(s, i) && G.Approved(i.target)
  {
  }

  /** A runtime that is not enabled never leaves that, whatever it is told. */
  lemma {:induction false} DisabledStays(cfg: Config, es: seq<Event>)
    requires !cfg.enabled
    ensures Run(cfg, es) == Runtime(Disabled, G.NoIntent, None, None, None, 0, 0, 0, 0, false, false, None)
  {
    if es != [] {
      DisabledStays(cfg, es[..|es| - 1]);
    }
  }
}
