/** The telemetry setup as a decision table, with its numbers written out. */
module StreamTable {
  import opened FlightTypes
  import opened TelemetryStreams

  /** The n-th request for a stream goes out and its answer is awaited for 2 s. */
  predicate Requests(id: Byte, stream: nat, n: nat, failure: Option<Byte>, now: Time, s': Setup,
                     r: Option<StreamRequest>)
    requires n > 0
  {
    && s' == Setup(Configuring, Some(id), stream, stream, n, true, now + 2_000_000_000, failure)
    && r == Some(StreamRequest(id, stream, n - 1))
  }

  /** Losing the vehicle forgets everything, another vehicle starts over, and each of
      the six streams is asked for up to three times, 2 s apart unless answered. */
  predicate PollDecides(s: Setup, connected: bool, vehicle: Option<Byte>, now: Time, s': Setup,
                        r: Option<StreamRequest>) {
    if !connected || vehicle.None? then s' == Setup(WaitingForVehicle, None, 0, 0, 0, false, 0, None) && r.None?
    else if s.systemId != vehicle then Requests(vehicle.value, 0, 1, None, now, s', r)
    else if s.phase != Configuring || (s.awaitingAck && now < s.ackDeadline) then s' == s && r.None?
    else if s.awaitingAck && s.attempt >= 3 then s' == s.(phase := Failed, failure := None) && r.None?
    else s.current < 6 && Requests(vehicle.value, s.current, s.attempt + 1, s.failure, now, s', r)
  }

  lemma PollFollowsTable(s: Setup, connected: bool, vehicle: Option<Byte>, now: Time)
    requires Consistent(s)
    ensures var (s', r) := Update(s, connected, vehicle, now);
            PollDecides(s, connected, vehicle, now, s', r)
  {
    if connected && vehicle.Some? && s.systemId != vehicle {
      assert Pursue(Begin(vehicle.value), now).1.Some?;
    }
  }

  /** An answer to the awaited request: result 0 completes the stream, 5 grants 2 s
      more, anything else ends the setup. */
  predicate AckDecides(s: Setup, result: Byte, now: Time, s': Setup) {
    if result == 0 then
      s' == Setup(if s.current == 5 then Running else Configuring, s.systemId, s.current + 1, s.completed + 1, 0, false,
                  s.ackDeadline, None)
    else if result == 5 then s' == s.(ackDeadline := now + 2_000_000_000)
    else s' == s.(phase := Failed, failure := Some(result), awaitingAck := false)
  }

  /** From the configured vehicle, addressed to it or nobody and to the companion or nobody. */
  predicate Awaited(s: Setup, source: Byte, targetSystem: Byte, targetComponent: Byte) {
    && s.phase == Configuring && s.awaitingAck && s.systemId == Some(source)
    && (targetSystem == 0 || targetSystem == source) && (targetComponent == 0 || targetComponent == 191)
  }
}
