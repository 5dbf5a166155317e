/** Precision guidance and the LAND protocol after a verified startup. */
module Autonomy {
  import opened FlightTypes
  import opened CommandTrace
  import opened Guidance
  import S = FlightStartup

  const TARGET_INTERVAL: Time := 200 * MILLISECOND
  const TARGET_WARMUP: Time := 1 * SECOND
  const LANDING_TIMEOUT: Time := 90 * SECOND
  const TARGET_STOP_ALTITUDE := 0.20
  const UINT64_RANGE := 0x1_0000_0000_0000_0000

  datatype Phase = Disabled | WaitingForStartup | Active | Landing | Completed | Failed

  datatype Config = Config(enabled: bool, landAfterLoss: Time)

  datatype Runtime = Runtime(
    phase: Phase,
    status: Status,
    systemId: Option<Byte>,
    landAfter: Option<Time>,
    missingSince: Option<Time>,
    nextTarget: Time,
    ackDeadline: Time,
    landingDeadline: Time,
    landAttempt: nat,
    awaitingAck: bool,
    targetActive: bool,
    failure: Option<Byte>)

  datatype Input = Input(
    vehicle: Vehicle,
    startup: S.Phase,
    linkAccepted: bool,
    now: Time,
    target: Option<BodyPosition>)

  function Initial(cfg: Config): Runtime {
    Runtime(if cfg.enabled then WaitingForStartup else Disabled, NoIntent, None, None, None,
            0, 0, 0, 0, false, false, None)
  }

  predicate Terminal(phase: Phase) { phase in {Disabled, Completed, Failed} }

  predicate Consistent(s: Runtime) {
    && s.landAttempt <= MAX_ATTEMPTS
    && (s.awaitingAck ==> s.phase == Active && s.landAttempt > 0 && s.systemId.Some?)
    && (s.phase == WaitingForStartup ==> s.landAttempt == 0 && s.landAfter.None? && s.missingSince.None?)
    && (s.phase == Active ==> s.landAfter.Some? != s.missingSince.Some?)
  }

  function Fail(s: Runtime): Runtime {
    s.(phase := Failed, awaitingAck := false, targetActive := false)
  }

  /** Microseconds since the clock's epoch as the unsigned 64-bit field carries them. */
  function Microseconds(now: Time): int {
    (if now >= 0 then now / 1000 else -(-now / 1000)) % UINT64_RANGE
  }

  function TargetRequest(systemId: Byte, target: BodyPosition, now: Time): FlightRequest {
    FlightRequest(LandingTarget, systemId, 0, 0.0, target, Microseconds(now))
  }

  // --- One poll ---

  function Activate(s: Runtime, i: Input): Runtime {
    if s.phase == WaitingForStartup then s.(phase := Active, missingSince := Some(i.now), nextTarget := i.now) else s
  }

  /** The vehicle is flying under guidance and the poll gets as far as supervision. */
  predicate Supervisable(s: Runtime, i: Input) {
    && (s.phase == Active || s.phase == Landing || (s.phase == WaitingForStartup && i.startup == S.Completed))
    && i.linkAccepted && i.vehicle.connected && i.vehicle.systemId.Some? && i.vehicle.armed
    && (s.phase == Landing ==>
          i.now < s.landingDeadline && (i.vehicle.relativeAltitude.None? || i.vehicle.relativeAltitude.value > 0.20))
  }

  predicate TouchedDown(v: Vehicle) {
    v.relativeAltitude.Some? && v.relativeAltitude.value <= TARGET_STOP_ALTITUDE
  }

  /** The requests of one poll, in sending order. */
  datatype Actions = Actions(target: Option<FlightRequest>, land: Option<FlightRequest>) {
    function Sequence(): seq<FlightRequest> {
      (if target.Some? then [target.value] else []) + (if land.Some? then [land.value] else [])
    }
  }

  const NOTHING := Actions(None, None)

  function LandCommand(s: Runtime, now: Time): (r: (Runtime, Option<FlightRequest>))
    requires Consistent(s) && (s.phase == Active ==> s.systemId.Some?)
    ensures Consistent(r.0)
  {
    if s.phase != Active || (s.awaitingAck && now < s.ackDeadline) then (s, None)
    else if s.landAttempt >= MAX_ATTEMPTS then (Fail(s), None)
    else
      (s.(landAttempt := s.landAttempt + 1, awaitingAck := true, ackDeadline := now + ACK_TIMEOUT),
       Some(CommandRequest(Land, s.systemId.value, s.landAttempt, 0.0)))
  }

  function Lost(s: Runtime, now: Time): Runtime {
    s.(targetActive := false, landAfter := None, nextTarget := now,
       missingSince := if s.missingSince.None? then Some(now) else s.missingSince)
  }

  function Seen(s: Runtime, now: Time): Runtime {
    if s.landAfter.None? && s.phase == Active
    then s.(missingSince := None, landAfter := Some(now + TARGET_WARMUP), nextTarget := now)
    else s.(missingSince := None)
  }

  /** The poll's effect once supervision has spoken. */
  function Guide(cfg: Config, s: Runtime, i: Input): (r: (Runtime, Actions))
    requires Consistent(s) && (s.phase == Active || s.phase == Landing)
    requires i.vehicle.systemId.Some? && s.systemId == i.vehicle.systemId
    ensures Consistent(r.0)
  {
    if !Approved(i.target) then
      var s1 := Lost(s, i.now);
      var (s2, land) :=
        if s.phase == Active && i.now - s1.missingSince.value >= cfg.landAfterLoss
          then LandCommand(s1, i.now) else (s1, None);
      (s2, Actions(None, land))
    else
      var s1 := Seen(s, i.now);
      var due := i.now >= s1.nextTarget;
      var s2 := if due then s1.(nextTarget := i.now + TARGET_INTERVAL) else s1;
      var (s3, land) :=
        if s.phase == Active && i.now >= s2.landAfter.value then LandCommand(s2, i.now) else (s2, None);
      (s3, Actions(if due then Some(TargetRequest(i.vehicle.systemId.value, i.target.value, i.now)) else None, land))
  }

  function Fly(cfg: Config, s: Runtime, i: Input): (r: (Runtime, Actions))
    requires Consistent(s) && (s.phase == Active || s.phase == Landing)
    ensures Consistent(r.0)
  {
    if !i.vehicle.connected || i.vehicle.systemId.None? || !i.linkAccepted then (Fail(s), NOTHING)
    else
      var s1 := s.(systemId := i.vehicle.systemId);
      if !i.vehicle.armed then
        (if s.phase == Landing then s1.(phase := Completed, targetActive := false) else Fail(s1), NOTHING)
      else if s.phase == Landing && i.now >= s.landingDeadline then (Fail(s1), NOTHING)
      else if s.phase == Landing && TouchedDown(i.vehicle) then (s1.(targetActive := false), NOTHING)
      else Guide(cfg, s1.(status := StatusFor(i.target)), i)
  }

  function Update(cfg: Config, s: Runtime, i: Input): (r: (Runtime, Actions))
    requires Consistent(s)
    ensures Consistent(r.0)
  {
    if Terminal(s.phase) then (s, NOTHING)
    else if s.phase == WaitingForStartup && i.startup != S.Completed then
      (if i.startup == S.Failed then Fail(s) else s, NOTHING)
    else if s.phase == WaitingForStartup && !i.linkAccepted then (Fail(s), NOTHING)
    else Fly(cfg, Activate(s, i), i)
  }

  // --- All a poll can do, aspect by aspect ---

  /** All a poll can do to the LAND bookkeeping. */
  predicate LandEffect(s: Runtime, s': Runtime, land: Option<FlightRequest>, now: Time) {
    if land.Some? then
      && s'.phase == Active && s.phase in {Active, WaitingForStartup}
      && s.landAttempt < MAX_ATTEMPTS && land.value.confirmation == s.landAttempt
      && (s.awaitingAck ==> now >= s.ackDeadline)
      && s'.landAttempt == s.landAttempt + 1 && s'.awaitingAck && s'.ackDeadline == now + ACK_TIMEOUT
    else
      || s'.phase in {Completed, Failed}
      || (&& (s'.phase == s.phase || (s.phase == WaitingForStartup && s'.phase == Active))
          && s'.landAttempt == s.landAttempt && s'.awaitingAck == s.awaitingAck && s'.ackDeadline == s.ackDeadline)
  }

  /** All a poll can do to the markers of the current streak of verdicts. */
  predicate LookEffect(s: Runtime, s': Runtime, i: Input) {
    && (s'.phase == Active ==> Supervisable(s, i) && s.phase != Landing)
    && (s'.phase in {Disabled, WaitingForStartup} ==> s' == s && !Supervisable(s, i))
    && (s'.phase == Active ==>
          if Approved(i.target)
          then s'.landAfter == if s.landAfter.Some? then s.landAfter else Some(i.now + TARGET_WARMUP)
          else s'.missingSince == if s.missingSince.Some? then s.missingSince else Some(i.now))
  }

  /** All a poll can do to a landing. */
  predicate LandingEffect(s: Runtime, s': Runtime, i: Input) {
    && (s'.phase == Landing ==> s.phase == Landing && s'.landingDeadline == s.landingDeadline &&
                                     i.now < s.landingDeadline)
    && (s.phase in {Landing, Completed, Failed} ==> s'.phase in {Landing, Completed, Failed})
    && (s'.phase == Completed && s.phase != Completed ==>
          s.phase == Landing && i.vehicle.connected && !i.vehicle.armed && i.linkAccepted)
  }

  lemma CommandLand(s: Runtime, now: Time)
    requires Consistent(s) && s.phase == Active && s.systemId.Some?
    ensures var (s', land) := LandCommand(s, now);
            LandEffect(s, s', land, now)
  {
  }

  lemma GuideLand(cfg: Config, s: Runtime, i: Input)
    requires Consistent(s) && (s.phase == Active || s.phase == Landing)
    requires i.vehicle.systemId.Some? && s.systemId == i.vehicle.systemId
    ensures var (s', a) := Guide(cfg, s, i);
            LandEffect(s, s', a.land, i.now)
  {
    if s.phase == Active {
      CommandLand(Lost(s, i.now), i.now);
      var seen := Seen(s, i.now);
      CommandLand(seen, i.now);
      CommandLand(seen.(nextTarget := i.now + TARGET_INTERVAL), i.now);
    }
  }

  lemma UpdateLand(cfg: Config, s: Runtime, i: Input)
    requires Consistent(s)
    ensures var (s', a) := Update(cfg, s, i);
            LandEffect(s, s', a.land, i.now)
  {
    if Supervisable(s, i) {
      GuideLand(cfg, Activate(s, i).(systemId := i.vehicle.systemId, status := StatusFor(i.target)), i);
    }
  }

  /** The phases a poll can lead to; a LAND is requested in the active one only. */
  predicate PhaseEffect(s: Runtime, s': Runtime, land: Option<FlightRequest>, i: Input) {
    && (land.Some? ==> s'.phase == Active)
    && match s.phase
       case WaitingForStartup =>
         if i.startup == S.Completed then s'.phase in {Active, Failed}
         else s'.phase == if i.startup == S.Failed then Failed else WaitingForStartup
       case Active => s'.phase in {Active, Failed}
       case Landing => s'.phase in {Landing, Completed, Failed}
       case _ => s'.phase == s.phase
  }

  lemma GuidePhase(cfg: Config, s: Runtime, i: Input)
    requires Consistent(s) && (s.phase == Active || s.phase == Landing)
    requires i.vehicle.systemId.Some? && s.systemId == i.vehicle.systemId
    ensures var (s', a) := Guide(cfg, s, i);
            (s'.phase == s.phase || (s.phase == Active && s'.phase == Failed)) && (a.land.Some? ==> s'.phase == Active)
  {
  }

  lemma UpdatePhase(cfg: Config, s: Runtime, i: Input)
    requires Consistent(s)
    ensures var (s', a) := Update(cfg, s, i);
            PhaseEffect(s, s', a.land, i)
  {
    if Supervisable(s, i) {
      GuidePhase(cfg, Activate(s, i).(systemId := i.vehicle.systemId, status := StatusFor(i.target)), i);
    }
  }

  lemma UpdateLook(cfg: Config, s: Runtime, i: Input)
    requires Consistent(s)
    ensures LookEffect(s, Update(cfg, s, i).0, i)
  {
  }

  lemma UpdateLanding(cfg: Config, s: Runtime, i: Input)
    requires Consistent(s)
    ensures LandingEffect(s, Update(cfg, s, i).0, i)
  {
  }

  function OnSent(s: Runtime, action: FlightAction, sent: bool): (s': Runtime)
    ensures Consistent(s) ==> Consistent(s')
  {
    if action == LandingTarget then s.(targetActive := sent)
    else if action != Land || sent then s
    else if s.landAttempt >= MAX_ATTEMPTS then Fail(s)
    else s.(awaitingAck := false)
  }

  predicate AckMatches(s: Runtime, action: FlightAction, source: Byte) {
    action == Land && s.awaitingAck && s.systemId == Some(source)
  }

  function OnAck(s: Runtime, action: FlightAction, outcome: AckOutcome, raw: Byte, source: Byte,
                 now: Time): (s': Runtime)
    ensures Consistent(s) ==> Consistent(s')
  {
    if !AckMatches(s, action, source) then s
    else match outcome
      case Accepted => s.(awaitingAck := false, phase := Landing, landingDeadline := now + LANDING_TIMEOUT)
      case InProgress => s.(ackDeadline := now + ACK_TIMEOUT)
      case Rejected => Fail(s).(failure := Some(raw))
  }

  // --- Histories of one runtime ---

  datatype Event =
    | Poll(input: Input, targetDelivered: bool, landDelivered: bool)
    | Ack(action: FlightAction, outcome: AckOutcome, raw: Byte, source: Byte, at: Time)
    | Restart(at: Time)

  function At(e: Event): Time { if e.Poll? then e.input.now else e.at }

  function Deliver(s: Runtime, a: Actions, targetDelivered: bool, landDelivered: bool): (s': Runtime)
    ensures Consistent(s) ==> Consistent(s')
  {
    var s1 := if a.target.Some? then OnSent(s, LandingTarget, targetDelivered) else s;
    if a.land.Some? then OnSent(s1, Land, landDelivered) else s1
  }

  function Step(cfg: Config, s: Runtime, e: Event): (s': Runtime)
    requires Consistent(s)
    ensures Consistent(s')
  {
    match e
    case Poll(i, targetDelivered, landDelivered) =>
      var (s', a) := Update(cfg, s, i);
      Deliver(s', a, targetDelivered, landDelivered)
    case Ack(action, outcome, raw, source, at) => OnAck(s, action, outcome, raw, source, at)
    case Restart(_) => Initial(cfg)
  }

  function Run(cfg: Config, es: seq<Event>): (s: Runtime)
    ensures Consistent(s)
  {
    if es == [] then Initial(cfg) else Step(cfg, Run(cfg, es[..|es| - 1]), es[|es| - 1])
  }

  function Emitted(cfg: Config, s: Runtime, e: Event): Actions
    requires Consistent(s)
  {
    if e.Poll? then Update(cfg, s, e.input).1 else NOTHING
  }

  predicate Monotone(es: seq<Event>) {
    forall i, j :: 0 <= i < j < |es| ==> At(es[i]) <= At(es[j])
  }

  /** Every action is for the connected, armed vehicle of this very poll, whose
      link failsafe is accepted; guidance carries the approved target unchanged. */
  lemma ActionsAreSafe(cfg: Config, s: Runtime, i: Input)
    requires Consistent(s)
    ensures var a := Update(cfg, s, i).1;
            && (a != NOTHING ==> Supervisable(s, i))
            && (a.target.Some? ==> Approved(i.target))
            && (a.target.Some? ==> a.target.value == TargetRequest(i.vehicle.systemId.value, i.target.value, i.now))
            && (a.land.Some? ==> s.phase != Landing && s.landAttempt < MAX_ATTEMPTS)
            && (a.land.Some? ==> a.land.value == CommandRequest(Land, i.vehicle.systemId.value, s.landAttempt, 0.0))
  {
  }

  // --- The LAND command language ---

  function Record(cfg: Config, s: Runtime, t: seq<Sent>, e: Event): seq<Sent>
    requires Consistent(s)
  {
    var r := Emitted(cfg, s, e).land;
    if e.Restart? then []
    else if r.Some? then t + [Sent(0, r.value.confirmation, At(e), e.landDelivered)]
    else t
  }

  /** The LANDs of the current flight. */
  function Trace(cfg: Config, es: seq<Event>): seq<Sent> {
    if es == [] then []
    else Record(cfg, Run(cfg, es[..|es| - 1]), Trace(cfg, es[..|es| - 1]), es[|es| - 1])
  }

  ghost predicate TraceInv(s: Runtime, t: seq<Sent>, now: Time) {
    && Disciplined(t)
    && (forall k :: 0 <= k < |t| ==> t[k].stage == 0)
    && (s.phase in {Disabled, WaitingForStartup} ==> t == [])
    && (s.phase == Active ==>
          if s.landAttempt == 0 then t == []
          else
            && t != [] && t[|t| - 1].confirmation == s.landAttempt - 1
            && (s.awaitingAck ==> s.ackDeadline >= t[|t| - 1].at + ACK_TIMEOUT)
            && (!s.awaitingAck ==> !t[|t| - 1].delivered))
    && (t != [] ==> t[|t| - 1].at <= now)
  }

  lemma LandEffectKeepsTrace(s: Runtime, s': Runtime, land: Option<FlightRequest>, t: seq<Sent>,
                             now: Time, delivered: bool)
    requires Consistent(s) && Consistent(s') && TraceInv(s, t, now) && LandEffect(s, s', land, now)
    ensures if land.Some? then
              TraceInv(OnSent(s', Land, delivered), t + [Sent(0, land.value.confirmation, now, delivered)], now)
            else TraceInv(s', t, now)
  {
    if land.Some? {
      DisciplinedExtend(t, Sent(0, s.landAttempt, now, delivered));
    }
  }

  lemma StepKeepsTrace(cfg: Config, s: Runtime, t: seq<Sent>, e: Event)
    requires Consistent(s) && TraceInv(s, t, At(e))
    ensures TraceInv(Step(cfg, s, e), Record(cfg, s, t, e), At(e))
  {
    if e.Poll? {
      var (s', a) := Update(cfg, s, e.input);
      UpdateLand(cfg, s, e.input);
      LandEffectKeepsTrace(s, s', a.land, t, At(e), e.landDelivered);
      DeliverTarget(s', a, e);
    }
  }

  lemma DeliverTarget(s: Runtime, a: Actions, e: Event)
    requires e.Poll? && Consistent(s)
    ensures var landed := if a.land.Some? then OnSent(s, Land, e.landDelivered) else s;
            var s' := Deliver(s, a, e.targetDelivered, e.landDelivered);
            s'.(targetActive := landed.targetActive) == landed
  {
  }

  lemma {:induction false} TraceInvAlways(cfg: Config, es: seq<Event>, now: Time)
    requires Monotone(es) && (es != [] ==> At(es[|es| - 1]) <= now)
    ensures TraceInv(Run(cfg, es), Trace(cfg, es), now)
  {
    if es != [] {
      var front, e := es[..|es| - 1], es[|es| - 1];
      TraceInvAlways(cfg, front, At(e));
      StepKeepsTrace(cfg, Run(cfg, front), Trace(cfg, front), e);
    }
  }

  /** At most three LANDs a flight, confirmations 0, 1, 2 in order, a resend at
      least two seconds after a send that was delivered. */
  lemma {:induction false} LandLanguage(cfg: Config, es: seq<Event>)
    requires Monotone(es)
    ensures var t := Trace(cfg, es);
            && |t| <= 3
            && (forall k :: 0 <= k < |t| ==> t[k].confirmation == k)
            && (forall k :: 0 < k < |t| ==> t[k - 1].delivered ==> t[k].at >= t[k - 1].at + 2_000_000_000)
  {
    var t := Trace(cfg, es);
    TraceInvAlways(cfg, es, if es == [] then 0 else At(es[|es| - 1]));
    if t != [] { DisciplinedLength(t); }
    assert |t| > 1 ==> Follows(t[0], t[1]);
    assert |t| > 2 ==> Follows(t[1], t[2]);
  }

  // --- The component ---

  class AutonomyRuntime {
    const cfg: Config
    var phase: Phase
    var status: Status
    var systemId: Option<Byte>
    var landAfter: Option<Time>
    var missingSince: Option<Time>
    var nextTarget: Time
    var ackDeadline: Time
    var landingDeadline: Time
    var landAttempt: nat
    var awaitingAck: bool
    var targetActive: bool
    var failure: Option<Byte>

    function State(): Runtime
      reads this
    {
      Runtime(phase, status, systemId, landAfter, missingSince, nextTarget, ackDeadline, landingDeadline,
              landAttempt, awaitingAck, targetActive, failure)
    }

    ghost predicate Valid()
      reads this
    {
      Consistent(State())
    }

    constructor Init(cfg: Config)
      ensures this.cfg == cfg && Valid() && State() == Initial(cfg)
    {
      this.cfg := cfg;
      phase, status, systemId, landAfter, missingSince := Disabled, NoIntent, None, None, None;
      nextTarget, ackDeadline, landingDeadline, landAttempt := 0, 0, 0, 0;
      awaitingAck, targetActive, failure := false, false, None;
      new;
      if cfg.enabled {
        Restart();
      }
    }

    /** The source's constructor refuses a loss timeout that is not positive. */
    static method Create(cfg: Config) returns (r: AutonomyRuntime?)
      ensures r == null <==> cfg.landAfterLoss <= 0
      ensures r != null ==> fresh(r) && r.cfg == cfg && r.Valid() && r.State() == Initial(cfg)
    {
      if cfg.landAfterLoss <= 0 {
        return null;
      }
      r := new AutonomyRuntime.Init(cfg);
    }

    method Restart()
      modifies this
      ensures Valid() && State() == Initial(cfg)
    {
      phase := if cfg.enabled then WaitingForStartup else Disabled;
      status := NoIntent;
      systemId, landAfter, missingSince := None, None, None;
      nextTarget, ackDeadline, landingDeadline := 0, 0, 0;
      landAttempt := 0;
      awaitingAck, targetActive := false, false;
      failure := None;
    }

    method FailNow()
      modifies this
      ensures State() == Fail(old(State()))
    {
      phase, awaitingAck, targetActive := Failed, false, false;
    }

    method UpdateLandCommand(now: Time) returns (r: Option<FlightRequest>)
      requires Valid() && (phase == Active ==> systemId.Some?)
      modifies this
      ensures Valid() && (State(), r) == LandCommand(old(State()), now)
    {
      if phase != Active {
        return None;
      }
      if awaitingAck {
        if now < ackDeadline {
          return None;
        }
        awaitingAck := false;
      }
      if landAttempt >= MAX_ATTEMPTS {
        FailNow();
        return None;
      }
      var confirmation := landAttempt;
      landAttempt := landAttempt + 1;
      awaitingAck := true;
      ackDeadline := now + ACK_TIMEOUT;
      r := Some(CommandRequest(Land, systemId.value, confirmation, 0.0));
    }

    /** What follows supervision: the fallback LAND on a long loss, or the paced
        guidance stream and the LAND after its warm-up. */
    method ActOn(supervised: Supervised, now: Time, ghost i: Input) returns (actions: seq<FlightRequest>)
      requires Valid() && (phase == Active || phase == Landing)
      requires systemId.Some? && i.vehicle.systemId == systemId && i.now == now
      requires supervised.approved == if Approved(i.target)
                                      then Some(DesiredMotion(systemId.value, i.target.value, now,
                                                              now + INTENT_LIFETIME))
                                      else None
      modifies this
      ensures var (s', a) := Guide(cfg, old(State()), i);
              State() == s' && actions == a.Sequence()
    {
      actions := [];
      if supervised.approved.None? {
        targetActive := false;
        landAfter := None;
        nextTarget := now;
        if missingSince.None? {
          missingSince := Some(now);
        }
        if phase == Landing {
          return;
        }
        if now - missingSince.value >= cfg.landAfterLoss {
          var land := UpdateLandCommand(now);
          if land.Some? {
            actions := [land.value];
          }
        }
        return;
      }
      missingSince := None;
      var intent := supervised.approved.value;
      if landAfter.None? && phase == Active {
        landAfter := Some(now + TARGET_WARMUP);
        nextTarget := now;
      }
      if now >= nextTarget {
        actions := [TargetRequest(intent.systemId, intent.landingTarget, now)];
        nextTarget := now + TARGET_INTERVAL;
      }
      if phase == Active && landAfter.Some? && now >= landAfter.value {
        var land := UpdateLandCommand(now);
        if land.Some? {
          actions := actions + [land.value];
        }
      }
    }

    method Poll(i: Input) returns (actions: seq<FlightRequest>)
      requires Valid()
      modifies this
      ensures Valid()
      ensures var (s', a) := Update(cfg, old(State()), i);
              State() == s' && actions == a.Sequence()
    {
      actions := [];
      if phase == Disabled || phase == Completed || phase == Failed {
        return;
      }
      if phase == WaitingForStartup {
        if i.startup == S.Failed {
          FailNow();
          return;
        }
        if i.startup != S.Completed {
          return;
        }
        if !i.linkAccepted {
          FailNow();
          return;
        }
        phase := Active;
        missingSince := Some(i.now);
        nextTarget := i.now;
      }
      actions := PollFlying(i);
    }

    method PollFlying(i: Input) returns (actions: seq<FlightRequest>)
      requires Valid() && (phase == Active || phase == Landing)
      modifies this
      ensures Valid()
      ensures var (s', a) := Fly(cfg, old(State()), i);
              State() == s' && actions == a.Sequence()
    {
      actions := [];
      if !i.vehicle.connected || i.vehicle.systemId.None? {
        FailNow();
        return;
      }
      if !i.linkAccepted {
        FailNow();
        return;
      }
      systemId := i.vehicle.systemId;
      if phase == Landing && !i.vehicle.armed {
        phase := Completed;
        targetActive := false;
        return;
      }
      if phase == Active && !i.vehicle.armed {
        FailNow();
        return;
      }
      if phase == Landing && i.now >= landingDeadline {
        FailNow();
        return;
      }
      if phase == Landing && TouchedDown(i.vehicle) {
        targetActive := false;
        return;
      }
      var world := MakeWorldState(i.vehicle, i.target, i.now);
      var desired := Decide(world);
      var supervised := Supervise(world, desired, i.now);
      PipelineApproves(i.vehicle, i.target, i.now);
      status := supervised.status;
      actions := ActOn(supervised, i.now, i);
    }

    method OnActionSent(action: FlightAction, sent: bool)
      requires Valid()
      modifies this
      ensures Valid() && State() == OnSent(old(State()), action, sent)
    {
      if action == LandingTarget {
        targetActive := sent;
        return;
      }
      if action != Land || sent {
        return;
      }
      awaitingAck := false;
      if landAttempt >= MAX_ATTEMPTS {
        FailNow();
      }
    }

    method OnCommandAck(action: FlightAction, outcome: AckOutcome, raw: Byte, source: Byte, now: Time)
      requires Valid()
      modifies this
      ensures Valid() && State() == OnAck(old(State()), action, outcome, raw, source, now)
    {
      if action != Land || !awaitingAck || systemId.None? || source != systemId.value {
        return;
      }
      match outcome {
        case Accepted =>
          awaitingAck := false;
          phase := Landing;
          landingDeadline := now + LANDING_TIMEOUT;
        case InProgress =>
          ackDeadline := now + ACK_TIMEOUT;
        case Rejected =>
          failure := Some(raw);
          FailNow();
      }
    }
  }
}
