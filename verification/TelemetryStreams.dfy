/** Sequential, bounded-retry setup of the six telemetry streams of one vehicle. */
module TelemetryStreams {
  import opened FlightTypes
  import opened CommandTrace

  const STREAMS: nat := 6
  const COMPANION_COMPONENT: Byte := 191

  datatype Phase = WaitingForVehicle | Configuring | Running | Failed

  datatype Setup = Setup(
    phase: Phase,
    systemId: Option<Byte>,
    current: nat,
    completed: nat,
    attempt: nat,
    awaitingAck: bool,
    ackDeadline: Time,
    failure: Option<Byte>)

  /** SET_MESSAGE_INTERVAL for one stream; its message id and rate are fixed by the index. */
  datatype StreamRequest = StreamRequest(systemId: Byte, stream: nat, confirmation: nat)

  datatype Verdict = Done | StillBusy | Refused(raw: Byte)

  /** An acknowledgement of SET_MESSAGE_INTERVAL. */
  datatype StreamAck = StreamAck(source: Byte, targetSystem: Byte, targetComponent: Byte, verdict: Verdict)

  const RESET := Setup(WaitingForVehicle, None, 0, 0, 0, false, 0, None)

  function Begin(systemId: Byte): Setup {
    RESET.(phase := Configuring, systemId := Some(systemId))
  }

  predicate Consistent(s: Setup) {
    && s.completed == s.current <= STREAMS && s.attempt <= MAX_ATTEMPTS
    && (s.phase == Configuring ==> s.systemId.Some? && s.current < STREAMS && (s.awaitingAck <==> s.attempt > 0))
    && (s.phase == Running <==> s.current == STREAMS) && (s.phase == Running ==> s.attempt == 0)
    && (s.phase == WaitingForVehicle <==> s.systemId.None?)
    && (s.phase == WaitingForVehicle ==> s == RESET)
  }

  // --- One update and one acknowledgement ---

  /** (Re)send the current request when its answer is not due any more. */
  function Pursue(t: Setup, now: Time): (r: (Setup, Option<StreamRequest>))
    requires Consistent(t) && t.systemId.Some?
    ensures Consistent(r.0)
  {
    if t.phase != Configuring || (t.awaitingAck && now < t.ackDeadline) then (t, None)
    else if t.awaitingAck && t.attempt >= MAX_ATTEMPTS then (t.(phase := Failed, failure := None), None)
    else
      (t.(attempt := t.attempt + 1, awaitingAck := true, ackDeadline := now + ACK_TIMEOUT),
       Some(StreamRequest(t.systemId.value, t.current, t.attempt)))
  }

  function Update(s: Setup, connected: bool, vehicle: Option<Byte>, now: Time): (r: (Setup, Option<StreamRequest>))
    requires Consistent(s)
    ensures Consistent(r.0)
  {
    if !connected || vehicle.None? then (RESET, None)
    else Pursue(if s.systemId == vehicle then s else Begin(vehicle.value), now)
  }

  predicate AckMatches(s: Setup, a: StreamAck) {
    && s.phase == Configuring && s.awaitingAck && s.systemId == Some(a.source)
    && a.targetSystem in {0, a.source} && a.targetComponent in {0, COMPANION_COMPONENT}
  }

  function OnAck(s: Setup, a: StreamAck, now: Time): (s': Setup)
    requires Consistent(s)
    ensures Consistent(s')
  {
    if !AckMatches(s, a) then s
    else match a.verdict
      case StillBusy => s.(ackDeadline := now + ACK_TIMEOUT)
      case Refused(raw) => s.(phase := Failed, failure := Some(raw), awaitingAck := false)
      case Done =>
        s.(completed := s.completed + 1, current := s.current + 1, attempt := 0, awaitingAck := false, failure := None,
           phase := if s.current + 1 == STREAMS then Running else Configuring)
  }

  // --- Histories ---

  datatype Event =
    | Poll(connected: bool, vehicle: Option<Byte>, at: Time)
    | Ack(ack: StreamAck, at: Time)

  function Step(s: Setup, e: Event): (s': Setup)
    requires Consistent(s)
    ensures Consistent(s')
  {
    match e
    case Poll(connected, vehicle, at) => Update(s, connected, vehicle, at).0
    case Ack(ack, at) => OnAck(s, ack, at)
  }

  function Run(es: seq<Event>): (s: Setup)
    ensures Consistent(s)
  {
    if es == [] then RESET else Step(Run(es[..|es| - 1]), es[|es| - 1])
  }

  predicate Monotone(es: seq<Event>) {
    forall i, j :: 0 <= i < j < |es| ==> es[i].at <= es[j].at
  }

  /** One vehicle session: the requests sent and the acknowledgements that completed a stream. */
  datatype Session = Session(sent: seq<Sent>, accepted: seq<Time>)

  const NO_SESSION := Session([], [])

  /** The update that starts a session also sends its first request. */
  function Record(s: Setup, log: Session, e: Event): Session
    requires Consistent(s)
  {
    match e
    case Poll(connected, vehicle, at) =>
      var log' := if connected && vehicle.Some? && s.systemId == vehicle then log else NO_SESSION;
      Noted(log', Update(s, connected, vehicle, at).1, at)
    case Ack(ack, at) =>
      if AckMatches(s, ack) && ack.verdict.Done? then log.(accepted := log.accepted + [at]) else log
  }

  function Log(es: seq<Event>): Session {
    if es == [] then NO_SESSION else Record(Run(es[..|es| - 1]), Log(es[..|es| - 1]), es[|es| - 1])
  }

  /** The acceptance of stream j falls after every request for streams up to j
      and before every request for a later one. */
  predicate Interleaved(log: Session) {
    forall k, j :: 0 <= k < |log.sent| && 0 <= j < |log.accepted| ==>
      if log.sent[k].stage <= j then log.sent[k].at <= log.accepted[j] else log.accepted[j] <= log.sent[k].at
  }

  ghost predicate LogInv(s: Setup, log: Session, now: Time) {
    && Disciplined(log.sent) && Interleaved(log)
    && |log.accepted| == s.current
    && (forall k :: 0 <= k < |log.sent| ==> log.sent[k].at <= now && log.sent[k].stage <= s.current)
    && (forall k :: 0 <= k < |log.accepted| ==> log.accepted[k] <= now)
    && (s.phase == WaitingForVehicle ==> log == NO_SESSION)
    && (log.sent == [] ==> s.current == 0 && s.attempt == 0)
    && (log.sent != [] ==>
          var last := log.sent[|log.sent| - 1];
          && last.delivered
          && (if s.attempt == 0 then last.stage + 1 == s.current
              else last.stage == s.current && last.confirmation == s.attempt - 1)
          && (s.phase == Configuring && s.awaitingAck ==> s.ackDeadline >= last.at + ACK_TIMEOUT))
  }

  lemma RequestKeepsLog(t: Setup, log: Session, now: Time)
    requires Consistent(t) && t.phase == Configuring && LogInv(t, log, now)
    requires t.attempt < MAX_ATTEMPTS && !(t.awaitingAck && now < t.ackDeadline)
    ensures LogInv(t.(attempt := t.attempt + 1, awaitingAck := true, ackDeadline := now + ACK_TIMEOUT),
                   log.(sent := log.sent + [Sent(t.current, t.attempt, now, true)]), now)
  {
    DisciplinedExtend(log.sent, Sent(t.current, t.attempt, now, true));
  }

  function Noted(log: Session, r: Option<StreamRequest>, now: Time): Session {
    if r.Some? then log.(sent := log.sent + [Sent(r.value.stream, r.value.confirmation, now, true)]) else log
  }

  lemma PursueKeepsLog(t: Setup, log: Session, now: Time)
    requires Consistent(t) && t.systemId.Some? && LogInv(t, log, now)
    ensures LogInv(Pursue(t, now).0, Noted(log, Pursue(t, now).1, now), now)
  {
    if Pursue(t, now).1.Some? {
      RequestKeepsLog(t, log, now);
    } else {
      assert Pursue(t, now).0 == t || Pursue(t, now).0 == t.(phase := Failed, failure := None);
    }
  }

  lemma AckKeepsLog(s: Setup, log: Session, a: StreamAck, now: Time)
    requires Consistent(s) && LogInv(s, log, now)
    ensures LogInv(OnAck(s, a, now), Record(s, log, Ack(a, now)), now)
  {
  }

  lemma PollKeepsLog(s: Setup, log: Session, connected: bool, vehicle: Option<Byte>, at: Time)
    requires Consistent(s) && LogInv(s, log, at)
    ensures LogInv(Update(s, connected, vehicle, at).0, Record(s, log, Poll(connected, vehicle, at)), at)
  {
    if !connected || vehicle.None? {
      assert Record(s, log, Poll(connected, vehicle, at)) == NO_SESSION;
    } else if s.systemId == vehicle {
      PursueKeepsLog(s, log, at);
      assert Record(s, log, Poll(connected, vehicle, at)) == Noted(log, Pursue(s, at).1, at);
    } else {
      PursueKeepsLog(Begin(vehicle.value), NO_SESSION, at);
      assert Record(s, log, Poll(connected, vehicle, at)) == Noted(NO_SESSION, Pursue(Begin(vehicle.value), at).1, at);
    }
  }

  lemma StepKeepsLog(s: Setup, log: Session, e: Event)
    requires Consistent(s) && LogInv(s, log, e.at)
    ensures LogInv(Step(s, e), Record(s, log, e), e.at)
  {
    match e
    case Poll(connected, vehicle, at) => PollKeepsLog(s, log, connected, vehicle, at);
    case Ack(ack, at) => AckKeepsLog(s, log, ack, at);
  }

  lemma LogLater(s: Setup, log: Session, now: Time, later: Time)
    requires LogInv(s, log, now) && now <= later
    ensures LogInv(s, log, later)
  {
  }

  lemma {:induction false} LogInvAlways(es: seq<Event>, now: Time)
    requires Monotone(es) && (es != [] ==> es[|es| - 1].at <= now)
    ensures LogInv(Run(es), Log(es), now)
  {
    if es != [] {
      var front, e := es[..|es| - 1], es[|es| - 1];
      LogInvAlways(front, e.at);
      StepKeepsLog(Run(front), Log(front), e);
      LogLater(Run(es), Log(es), e.at, now);
    }
  }

  /** Stages are visited without gaps: each one up to the last was sent. */
  lemma {:induction false} EveryStageSent(t: seq<Sent>, j: nat)
    requires Disciplined(t) && t != [] && j <= t[|t| - 1].stage
    ensures exists k :: 0 <= k < |t| && t[k].stage == j
  {
    var n := |t| - 1;
    if j < t[n].stage {
      assert n > 0;
      assert Follows(t[n - 1], t[n]);
      EveryStageSent(t[..n], j);
      var k :| 0 <= k < n && t[..n][k].stage == j;
      assert t[k].stage == j;
    }
  }

  /** The request that the acceptance of stream j answers. */
  ghost predicate Requested(log: Session, j: nat)
    requires j < |log.accepted|
  {
    exists k :: 0 <= k < |log.sent| && log.sent[k].stage == j && log.sent[k].at <= log.accepted[j]
  }

  lemma AcceptedWasRequested(s: Setup, log: Session, now: Time, j: nat)
    requires Consistent(s) && LogInv(s, log, now) && j < |log.accepted|
    ensures Requested(log, j)
  {
    EveryStageSent(log.sent, j);
  }

  /** In every session the streams are requested in order, each at most three
      times with confirmations 0, 1, 2 and two seconds between repeats; the setup
      is running if and only if all six were accepted, each after a request for
      it; and a next stream is first requested after its predecessor's answer. */
  lemma {:induction false} SetupLanguage(es: seq<Event>)
    requires Monotone(es)
    ensures var s, log := Run(es), Log(es);
            && Disciplined(log.sent) && Interleaved(log) && |log.sent| <= 18
            && s.completed == s.current == |log.accepted| <= 6
            && (s.phase == Running <==> |log.accepted| == 6)
            && (forall j :: 0 <= j < |log.accepted| ==> Requested(log, j))
  {
    var log := Log(es);
    var now := if es == [] then 0 else es[|es| - 1].at;
    LogInvAlways(es, now);
    if log.sent != [] { DisciplinedLength(log.sent); }
    forall j | 0 <= j < |log.accepted| ensures Requested(log, j) {
      AcceptedWasRequested(Run(es), log, now, j);
    }
  }

  /** How much of the setup is left: each request and each acceptance uses some up,
      nothing else within a session gives any back. */
  function Remaining(s: Setup): (nat, nat)
    requires Consistent(s)
  {
    (STREAMS - s.current, MAX_ATTEMPTS - s.attempt)
  }

  predicate Below(a: (nat, nat), b: (nat, nat)) { a.0 < b.0 || (a.0 == b.0 && a.1 < b.1) }

  lemma SetupProgresses(s: Setup, e: Event)
    requires Consistent(s) && s.phase == Configuring
    requires e.Poll? ==> e.connected && e.vehicle == s.systemId
    ensures var s' := Step(s, e);
            && s'.systemId == s.systemId
            && (Remaining(s') == Remaining(s) || Below(Remaining(s'), Remaining(s)))
            && (e.Poll? && Update(s, e.connected, e.vehicle, e.at).1.Some? ==> Below(Remaining(s'), Remaining(s)))
            && (e.Ack? && AckMatches(s, e.ack) && e.ack.verdict.Done? ==> Below(Remaining(s'), Remaining(s)))
            && (e.Poll? && s.awaitingAck && e.at >= s.ackDeadline ==>
                  s'.phase == Failed || Below(Remaining(s'), Remaining(s)))
  {
  }

  // --- The component ---

  class TelemetryStreamConfigurator {
    var phase: Phase
    var systemId: Option<Byte>
    var current: nat
    var completed: nat
    var attempt: nat
    var awaitingAck: bool
    var ackDeadline: Time
    var failure: Option<Byte>

    function State(): Setup
      reads this
    {
      Setup(phase, systemId, current, completed, attempt, awaitingAck, ackDeadline, failure)
    }

    ghost predicate Valid()
      reads this
    {
      Consistent(State())
    }

    constructor ()
      ensures Valid() && State() == RESET
    {
      phase, systemId, current, completed := WaitingForVehicle, None, 0, 0;
      attempt, awaitingAck, ackDeadline, failure := 0, false, 0, None;
    }

    method Reset()
      modifies this
      ensures State() == RESET
    {
      phase, systemId, current, completed := WaitingForVehicle, None, 0, 0;
      attempt, awaitingAck, ackDeadline, failure := 0, false, 0, None;
    }

    method BeginSetup(vehicle: Byte)
      modifies this
      ensures State() == Begin(vehicle)
    {
      Reset();
      phase := Configuring;
      systemId := Some(vehicle);
    }

    method Poll(connected: bool, vehicle: Option<Byte>, now: Time) returns (r: Option<StreamRequest>)
      requires Valid()
      modifies this
      ensures Valid() && (State(), r) == Update(old(State()), connected, vehicle, now)
    {
      if !connected || vehicle.None? {
        Reset();
        return None;
      }
      if systemId.None? || systemId.value != vehicle.value {
        BeginSetup(vehicle.value);
      }
      if phase != Configuring {
        return None;
      }
      if awaitingAck {
        if now < ackDeadline {
          return None;
        }
        if attempt >= MAX_ATTEMPTS {
          phase := Failed;
          failure := None;
          return None;
        }
        awaitingAck := false;
      }
      var confirmation := attempt;
      attempt := attempt + 1;
      awaitingAck := true;
      ackDeadline := now + ACK_TIMEOUT;
      r := Some(StreamRequest(vehicle.value, current, confirmation));
    }

    method OnCommandAck(a: StreamAck, now: Time)
      requires Valid()
      modifies this
      ensures Valid() && State() == OnAck(old(State()), a, now)
    {
      if phase != Configuring || !awaitingAck || systemId.None? || a.source != systemId.value {
        return;
      }
      if a.targetSystem != 0 && a.targetSystem != systemId.value {
        return;
      }
      if a.targetComponent != 0 && a.targetComponent != COMPANION_COMPONENT {
        return;
      }
      if a.verdict.StillBusy? {
        ackDeadline := now + ACK_TIMEOUT;
        return;
      }
      if a.verdict.Refused? {
        phase := Failed;
        failure := Some(a.verdict.raw);
        awaitingAck := false;
        return;
      }
      completed := completed + 1;
      current := current + 1;
      attempt := 0;
      awaitingAck := false;
      failure := None;
      if current == STREAMS {
        phase := Running;
      }
    }
  }
}
