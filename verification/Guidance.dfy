/** One decision cycle: world state, desired motion and its independent supervision. */
module Guidance {
  import opened FlightTypes

  const INTENT_LIFETIME: Time := 250 * MILLISECOND

  datatype WorldState = WorldState(
    connected: bool,
    armed: bool,
    systemId: Option<Byte>,
    landingTarget: Option<BodyPosition>,
    observedAt: Time)

  datatype DesiredMotion = DesiredMotion(systemId: Byte, landingTarget: BodyPosition, createdAt: Time, validUntil: Time)

  datatype Status = Allowed | NoIntent | FlightControllerDisconnected | VehicleDisarmed | StaleIntent | InvalidTarget

  datatype Supervised = Supervised(status: Status, approved: Option<DesiredMotion>)

  function MakeWorldState(v: Vehicle, target: Option<BodyPosition>, now: Time): WorldState {
    WorldState(v.connected, v.armed, v.systemId, target, now)
  }

  function Decide(world: WorldState): Option<DesiredMotion> {
    if world.systemId.None? || world.landingTarget.None? then None
    else
      Some(DesiredMotion(world.systemId.value, world.landingTarget.value, world.observedAt,
                         world.observedAt + INTENT_LIFETIME))
  }

  predicate ValidTarget(target: BodyPosition) {
    target.forward.Num? && target.right.Num? && target.down.Num? && target.down.value > 0.0
  }

  function Supervise(world: WorldState, desired: Option<DesiredMotion>, now: Time): Supervised {
    if desired.None? then Supervised(NoIntent, None)
    else if !world.connected then Supervised(FlightControllerDisconnected, None)
    else if !world.armed then Supervised(VehicleDisarmed, None)
    else if now > desired.value.validUntil then Supervised(StaleIntent, None)
    else if !ValidTarget(desired.value.landingTarget) then Supervised(InvalidTarget, None)
    else Supervised(Allowed, desired)
  }

  /** Whether a landing target would be followed. */
  predicate Approved(target: Option<BodyPosition>) {
    target.Some? && ValidTarget(target.value)
  }

  function StatusFor(target: Option<BodyPosition>): Status {
    if target.None? then NoIntent else if ValidTarget(target.value) then Allowed else InvalidTarget
  }

  /** A finite position with a positive distance down. */
  predicate BelowVehicle(target: Option<BodyPosition>) {
    match target
    case Some(BodyPosition(Num(_), Num(_), Num(down))) => down > 0.0
    case _ => false
  }

  /** What the supervisor lets through is armed, connected, at most 250 ms old and
      points below the vehicle; it is the decided intent unchanged. */
  lemma SupervisorIsSound(world: WorldState, now: Time)
    ensures var r := Supervise(world, Decide(world), now);
            (r.approved.Some? <==> r.status == Allowed) &&
            (r.approved.Some? <==>
               world.connected && world.armed && world.systemId.Some? && BelowVehicle(world.landingTarget) &&
               now - world.observedAt <= 250_000_000) &&
            (r.approved.Some? ==>
               r.approved.value == DesiredMotion(world.systemId.value, world.landingTarget.value, world.observedAt,
                                                 world.observedAt + 250_000_000))
  {
    // The six verdicts are exclusive, so Allowed is exactly the last one.
    assert Decide(world).Some? <==> world.systemId.Some? && world.landingTarget.Some?;
  }

  /** Why something is held back: the first of these that applies. */
  lemma SupervisorSaysWhy(world: WorldState, now: Time)
    ensures var status := Supervise(world, Decide(world), now).status;
            status ==
            if world.systemId.None? || world.landingTarget.None? then NoIntent
            else if !world.connected then FlightControllerDisconnected
            else if !world.armed then VehicleDisarmed
            else if now - world.observedAt > 250_000_000 then StaleIntent
            else if !BelowVehicle(world.landingTarget) then InvalidTarget
            else Allowed
  {
    assert Decide(world).Some? ==> Decide(world).value.validUntil == world.observedAt + 250_000_000;
  }

  /** For the connected, armed vehicle the runtime hands over, the pipeline
      approves exactly the valid targets and can report neither a disconnected
      nor a disarmed vehicle nor a stale intent. */
  lemma PipelineApproves(v: Vehicle, target: Option<BodyPosition>, now: Time)
    requires v.connected && v.armed && v.systemId.Some?
    ensures var world := MakeWorldState(v, target, now);
            var r := Supervise(world, Decide(world), now);
            && r.status == StatusFor(target)
            && r.approved == if Approved(target)
                             then Some(DesiredMotion(v.systemId.value, target.value, now, now + INTENT_LIFETIME))
                             else None
  {
    assert now <= now + INTENT_LIFETIME;
  }
}
