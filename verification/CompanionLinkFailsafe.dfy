/** The cached verdict on ArduPilot's companion-link failsafe parameters. */
module LinkFailsafe {
  import opened FlightTypes

  const GCS_ENABLE := "FS_GCS_ENABLE"
  const GCS_TIMEOUT := "FS_GCS_TIMEOUT"
  const FAILSAFE_OPTIONS := "FS_OPTIONS"
  const MY_GCS := "SYSID_MYGCS"
  const PARAMETER_NAMES: seq<string> := [GCS_ENABLE, GCS_TIMEOUT, FAILSAFE_OPTIONS, MY_GCS]

  const AUTOPILOT_COMPONENT: Byte := 1
  const MIN_TIMEOUT_S := 2.0
  const MAX_TIMEOUT_S := 10.0
  const ALWAYS_LAND := 5
  const UINT8_MAX := 255
  const UINT32_MAX := 0xFFFF_FFFF

  datatype Phase = WaitingForVehicle | ReadingParameters | PolicyAccepted | PolicyRejected

  datatype Snapshot = Snapshot(
    phase: Phase,
    session: Option<Byte>,
    gcsId: Option<int>,
    action: Option<int>,
    timeout: Option<real>,
    options: Option<int>,
    received: nat)

  /** The latest raw value of each parameter. */
  datatype Raw = Raw(action: Option<Double>, timeout: Option<Double>, options: Option<Double>, gcs: Option<Double>)

  const EMPTY := Raw(None, None, None, None)

  /** FS_OPTIONS bit 1 (continue in Auto) or bit 4 (continue in pilot modes) is set. */
  predicate Continues(options: nat) { options / 2 % 2 == 1 || options / 16 % 2 == 1 }

  function ExactInteger(value: Option<Double>, maximum: nat): (r: Option<int>)
    ensures forall n: nat :: n <= maximum ==> (r == Some(n) <==> value == Some(Num(n as real)))
    ensures r.Some? ==> 0 <= r.value <= maximum
  {
    if value.None? || !value.value.Num? then None
    else
      var v := value.value.value;
      if v < 0.0 || v > maximum as real || v.Floor as real != v then None else Some(v.Floor)
  }

  // --- The policy, stated on the four values directly ---

  /** Always LAND, 2 to 10 seconds, a whole-number bitmask leaving bits 1 and 4
      clear, and the companion's own non-zero system id as the watched one. */
  ghost predicate PolicyHolds(session: Byte, raw: Raw) {
    && raw.action == Some(Num(5.0))
    && (exists t: real :: raw.timeout == Some(Num(t)) && 2.0 <= t <= 10.0)
    && (exists n: nat :: n <= 0xFFFF_FFFF && raw.options == Some(Num(n as real)) && n / 2 % 2 == 0 && n / 16 % 2 == 0)
    && session != 0
    && raw.gcs == Some(Num(session as real))
  }

  function Received(raw: Raw): nat {
    (if raw.action.Some? then 1 else 0) + (if raw.timeout.Some? then 1 else 0) +
    (if raw.options.Some? then 1 else 0) + (if raw.gcs.Some? then 1 else 0)
  }

  /** The verdict computed from scratch. */
  ghost function Verdict(session: Option<Byte>, raw: Raw): Snapshot {
    if session.None? then Snapshot(WaitingForVehicle, None, None, None, None, None, 0)
    else if Received(raw) < 4 then
      Snapshot(ReadingParameters, session, None, None, None, None, Received(raw))
    else
      Snapshot(
        if PolicyHolds(session.value, raw) then PolicyAccepted else PolicyRejected,
        session,
        ExactInteger(raw.gcs, UINT8_MAX),
        var a := ExactInteger(raw.action, UINT8_MAX); if a.Some? && a.value <= 7 then a else None,
        if raw.timeout.value.Num? then Some(raw.timeout.value.value) else None,
        ExactInteger(raw.options, UINT32_MAX),
        4)
  }

  ghost predicate Accepts(c: Cache) { Verdict(c.session, c.raw).phase == PolicyAccepted }

  // --- Histories ---

  datatype Event =
    | Observe(connected: bool, systemId: Option<Byte>)
    | Param(system: Byte, comp: Byte, id: string, value: Double)

  datatype Cache = Cache(session: Option<Byte>, raw: Raw)

  const INITIAL := Cache(None, EMPTY)

  function Set(raw: Raw, id: string, value: Double): Raw {
    if id == GCS_ENABLE then raw.(action := Some(value))
    else if id == GCS_TIMEOUT then raw.(timeout := Some(value))
    else if id == FAILSAFE_OPTIONS then raw.(options := Some(value))
    else if id == MY_GCS then raw.(gcs := Some(value))
    else raw
  }

  function Step(c: Cache, e: Event): Cache {
    match e
    case Observe(connected, systemId) =>
      if !connected || systemId.None? then (if c.session.Some? then INITIAL else c)
      else if c.session != systemId then Cache(systemId, EMPTY) else c
    case Param(system, comp, id, value) =>
      if c.session == Some(system) && comp == AUTOPILOT_COMPONENT then c.(raw := Set(c.raw, id, value)) else c
  }

  function Run(c: Cache, es: seq<Event>): Cache {
    if es == [] then c else Step(Run(c, es[..|es| - 1]), es[|es| - 1])
  }

  /** The vehicle the last observation saw, read off the history. */
  function Session(es: seq<Event>): Option<Byte> {
    if es == [] then None
    else
      var last := es[|es| - 1];
      if last.Observe? then (if last.connected then last.systemId else None) else Session(es[..|es| - 1])
  }

  predicate Heard(es: seq<Event>, k: nat, id: string, value: Double)
    requires k < |es|
  {
    && es[k].Param? && es[k].id == id && es[k].value == value
    && es[k].comp == 1
    && Session(es[..k]) == Some(es[k].system)
  }

  /** The last value of one parameter heard from the current vehicle's autopilot
      since that vehicle became the current one. */
  function Latest(es: seq<Event>, id: string): Option<Double> {
    if es == [] then None
    else
      var front, last := es[..|es| - 1], es[|es| - 1];
      if last.Observe? then (if Session(es) == Session(front) then Latest(front, id) else None)
      else if Heard(es, |es| - 1, id, last.value) then Some(last.value)
      else Latest(front, id)
  }

  ghost predicate SameSessionSince(es: seq<Event>, k: nat)
    requires k < |es|
  {
    forall j :: k <= j <= |es| ==> Session(es[..j]) == Session(es[..k])
  }

  /** Position k carries the value, the session never changed after it, and
      nothing later was heard under that name. */
  ghost predicate LastHeardAt(es: seq<Event>, k: nat, id: string, value: Double) {
    && k < |es| && Heard(es, k, id, value)
    && SameSessionSince(es, k)
    && (forall j, v :: k < j < |es| ==> !Heard(es, j, id, v))
  }

  lemma HeardSnoc(front: seq<Event>, e: Event, j: nat, id: string, value: Double)
    requires j < |front|
    ensures Heard(front + [e], j, id, value) <==> Heard(front, j, id, value)
  {
    assert (front + [e])[..j] == front[..j];
  }

  lemma SessionSnoc(front: seq<Event>, e: Event, k: nat)
    requires k < |front|
    ensures SameSessionSince(front + [e], k) <==> SameSessionSince(front, k) && Session(front + [e]) == Session(front)
  {
    var (es, n) := (front + [e], |front|);
    assert es[..n + 1] == es && es[..n] == front && front[..n] == front && es[..k] == front[..k];
    if SameSessionSince(es, k) {
      forall j | k <= j <= n ensures Session(front[..j]) == Session(front[..k]) {
        assert es[..j] == front[..j];
      }
      assert Session(es[..n + 1]) == Session(es[..k]) == Session(es[..n]);
    }
    if SameSessionSince(front, k) && Session(es) == Session(front) {
      assert Session(front[..n]) == Session(front[..k]);
      forall j | k <= j <= n + 1 ensures Session(es[..j]) == Session(es[..k]) {
        if j <= n { assert es[..j] == front[..j]; }
      }
    }
  }

  /** One more event leaves it the last value heard unless it changes the session or
      is heard under that name itself. */
  lemma LastHeardSnoc(front: seq<Event>, e: Event, k: nat, id: string, value: Double)
    requires k < |front|
    ensures var es := front + [e];
            LastHeardAt(es, k, id, value) <==>
            && LastHeardAt(front, k, id, value) && Session(es) == Session(front)
            && (forall v :: !Heard(es, |front|, id, v))
  {
    var es := front + [e];
    SessionSnoc(front, e, k);
    forall j: nat, v | j < |front| ensures Heard(es, j, id, v) <==> Heard(front, j, id, v) {
      HeardSnoc(front, e, j, id, v);
    }
  }

  lemma {:induction false} LatestMeaning(es: seq<Event>, id: string, value: Double)
    ensures Latest(es, id) == Some(value) <==> exists k: nat :: LastHeardAt(es, k, id, value)
  {
    if es != [] {
      var n := |es| - 1;
      var front, last := es[..n], es[n];
      LatestMeaning(front, id, value);
      assert es == front + [last] && es[..n] == front;
      forall k: nat | k < n
        ensures LastHeardAt(es, k, id, value) <==>
                && LastHeardAt(front, k, id, value) && Session(es) == Session(front)
                && (forall v :: !Heard(es, n, id, v))
      {
        LastHeardSnoc(front, last, k, id, value);
      }
      assert LastHeardAt(es, n, id, value) <==> Heard(es, n, id, value) && Session(es) == Session(front) by {
        assert es[..n + 1] == es;
      }
      LatestStep(es, id, value);
    }
  }

  lemma LatestStep(es: seq<Event>, id: string, value: Double)
    requires es != []
    ensures var (n, front) := (|es| - 1, es[..|es| - 1]);
            Latest(es, id) == Some(value) <==>
            && Session(es) == Session(front)
            && (Heard(es, n, id, value) || (Latest(front, id) == Some(value) && forall v :: !Heard(es, n, id, v)))
  {
    var (n, front) := (|es| - 1, es[..|es| - 1]);
    assert es[n].Param? ==> Session(es) == Session(front);
    assert forall v :: Heard(es, n, id, v) ==> v == es[n].value;
  }

  function LatestAll(es: seq<Event>): Raw {
    Raw(Latest(es, "FS_GCS_ENABLE"), Latest(es, "FS_GCS_TIMEOUT"), Latest(es, "FS_OPTIONS"), Latest(es, "SYSID_MYGCS"))
  }

  /** Last writer wins: the cache is a function of the session and the latest
      value per name, whatever the order, repetition or foreign traffic. */
  lemma {:induction false} CacheIsLatest(es: seq<Event>)
    ensures Run(INITIAL, es) == Cache(Session(es), LatestAll(es))
  {
    if es != [] {
      CacheIsLatest(es[..|es| - 1]);
    }
  }

  /** An accepted verdict means the current vehicle's autopilot last reported
      exactly the required policy since it became the current vehicle. */
  lemma {:induction false} AcceptedIffPolicy(es: seq<Event>)
    ensures Accepts(Run(INITIAL, es)) <==> Session(es).Some? && PolicyHolds(Session(es).value, LatestAll(es))
  {
    CacheIsLatest(es);
  }

  predicate IsWhole(value: Option<Double>, n: Option<int>, maximum: nat) {
    if n.Some? then 0 <= n.value <= maximum && value == Some(Num(n.value as real))
    else
      match value
      case Some(Num(x)) => x < 0.0 || x > maximum as real || x.Floor as real != x
      case _ => true
  }

  function Missing(raw: Raw): nat {
    (if raw.action.Some? then 0 else 1) + (if raw.timeout.Some? then 0 else 1) +
    (if raw.options.Some? then 0 else 1) + (if raw.gcs.Some? then 0 else 1)
  }

  /** Nothing without a vehicle, the number of values while some are missing, and
      then the verdict with each value as the number it stands for, if any. */
  ghost predicate Says(v: Snapshot, id: Option<Byte>, raw: Raw) {
    if id.None? then v == Snapshot(WaitingForVehicle, None, None, None, None, None, 0)
    else if Missing(raw) > 0 then v == Snapshot(ReadingParameters, id, None, None, None, None, 4 - Missing(raw))
    else
      && v.phase == (if PolicyHolds(id.value, raw) then PolicyAccepted else PolicyRejected)
      && v.session == id && v.received == 4
      && IsWhole(raw.action, v.action, 7) && IsWhole(raw.options, v.options, 0xFFFF_FFFF)
      && IsWhole(raw.gcs, v.gcsId, 255)
      && v.timeout == (match raw.timeout case Some(Num(t)) => Some(t) case _ => None)
  }

  lemma WholeIsExact(value: Option<Double>, maximum: nat)
    ensures IsWhole(value, ExactInteger(value, maximum), maximum)
  {
  }

  lemma VerdictIsSaid(id: Option<Byte>, raw: Raw)
    ensures Says(Verdict(id, raw), id, raw)
  {
    WholeIsExact(raw.options, UINT32_MAX);
    WholeIsExact(raw.gcs, UINT8_MAX);
    WholeIsExact(raw.action, UINT8_MAX);
  }

  /** What the component reports, from the last values heard in the session. */
  lemma {:induction false} VerdictSays(es: seq<Event>)
    ensures var c := Run(INITIAL, es); Says(Verdict(c.session, c.raw), Session(es), LatestAll(es))
  {
    CacheIsLatest(es);
    VerdictIsSaid(Session(es), LatestAll(es));
  }

  lemma {:induction false} RunConcat(c: Cache, a: seq<Event>, b: seq<Event>)
    ensures Run(c, a + b) == Run(Run(c, a), b)
  {
    if b == [] {
      assert a + b == a;
    } else {
      assert (a + b)[..|a + b| - 1] == a + b[..|b| - 1];
      RunConcat(c, a, b[..|b| - 1]);
    }
  }

  predicate Foreign(c: Cache, e: Event) {
    e.Param? && (c.session != Some(e.system) || e.comp != AUTOPILOT_COMPONENT || e.id !in PARAMETER_NAMES)
  }

  /** Messages from another system or component, or of another name, leave no trace. */
  lemma ForeignMessagesVanish(a: seq<Event>, e: Event, b: seq<Event>)
    requires Foreign(Run(INITIAL, a), e)
    ensures Run(INITIAL, a + [e] + b) == Run(INITIAL, a + b)
  {
    RunConcat(INITIAL, a, [e]);
    RunConcat(INITIAL, a + [e], b);
    RunConcat(INITIAL, a, b);
    assert Run(Run(INITIAL, a), [e]) == Step(Run(Run(INITIAL, a), []), e);
  }

  /** Adjacent messages of different names may be exchanged, and a message
      followed by another of its own name may be dropped. */
  lemma {:induction false} MessagesReorder(a: seq<Event>, p: Event, q: Event, b: seq<Event>)
    requires p.Param? && q.Param?
    ensures p.id != q.id ==> Run(INITIAL, a + [p, q] + b) == Run(INITIAL, a + [q, p] + b)
    ensures p.id == q.id && p.system == q.system && p.comp == q.comp ==>
              Run(INITIAL, a + [p, q] + b) == Run(INITIAL, a + [q] + b)
  {
    var c := Run(INITIAL, a);
    RunTwo(a, p, q, b);
    RunTwo(a, q, p, b);
    RunConcat(INITIAL, a, [q]);
    RunConcat(INITIAL, a + [q], b);
    assert Run(c, [q]) == Step(Run(c, []), q);
  }

  lemma RunTwo(a: seq<Event>, p: Event, q: Event, b: seq<Event>)
    ensures Run(INITIAL, a + [p, q] + b) == Run(Step(Step(Run(INITIAL, a), p), q), b)
  {
    var c := Run(INITIAL, a);
    RunConcat(INITIAL, a, [p, q]);
    RunConcat(INITIAL, a + [p, q], b);
    assert [p, q][..1] == [p];
    assert Run(c, [p]) == Step(Run(c, []), p);
    assert Run(c, [p, q]) == Step(Run(c, [p]), q);
  }

  // --- The component ---

  class CompanionLinkFailsafe {
    var phase: Phase
    var session: Option<Byte>
    var gcsId: Option<int>
    var action: Option<int>
    var timeout: Option<real>
    var options: Option<int>
    var received: nat
    var rawAction: Option<Double>
    var rawTimeout: Option<Double>
    var rawOptions: Option<Double>
    var rawGcs: Option<Double>

    function CurrentSnapshot(): Snapshot
      reads this
    {
      Snapshot(phase, session, gcsId, action, timeout, options, received)
    }

    function State(): Cache
      reads this
    {
      Cache(session, Raw(rawAction, rawTimeout, rawOptions, rawGcs))
    }

    /** The incrementally kept snapshot is the verdict computed from scratch. */
    ghost predicate Valid()
      reads this
    {
      && CurrentSnapshot() == Verdict(session, State().raw)
      && (session.None? ==> State() == INITIAL)
    }

    constructor ()
      ensures Valid() && State() == INITIAL
    {
      phase, session, gcsId, action, timeout, options, received := WaitingForVehicle, None, None, None, None, None, 0;
      rawAction, rawTimeout, rawOptions, rawGcs := None, None, None, None;
    }

    method ObserveVehicle(connected: bool, systemId: Option<Byte>)
      requires Valid()
      modifies this
      ensures Valid() && State() == Step(old(State()), Observe(connected, systemId))
    {
      if !connected || systemId.None? {
        if session.Some? {
          Reset(None);
        }
        return;
      }
      if session != systemId {
        Reset(systemId);
      }
    }

    method OnParameter(system: Byte, comp: Byte, id: string, value: Double)
      requires Valid()
      modifies this
      ensures Valid() && State() == Step(old(State()), Param(system, comp, id, value))
    {
      if session.None? || system != session.value || comp != AUTOPILOT_COMPONENT {
        return;
      }
      if id == GCS_ENABLE {
        rawAction := Some(value);
      } else if id == GCS_TIMEOUT {
        rawTimeout := Some(value);
      } else if id == FAILSAFE_OPTIONS {
        rawOptions := Some(value);
      } else if id == MY_GCS {
        rawGcs := Some(value);
      } else {
        return;
      }
      Validate();
    }

    method Reset(systemId: Option<Byte>)
      modifies this
      ensures Valid() && State() == Cache(systemId, EMPTY)
    {
      phase, session, gcsId, action, timeout, options, received :=
        WaitingForVehicle, systemId, None, None, None, None, 0;
      if systemId.Some? {
        phase := ReadingParameters;
      }
      rawAction, rawTimeout, rawOptions, rawGcs := None, None, None, None;
    }

    /** The source's chain of early exits decides exactly PolicyHolds. */
    method Validate()
      requires session.Some?
      requires Received(State().raw) < 4 ==> gcsId.None? && action.None? && timeout.None? && options.None?
      modifies this`phase, this`gcsId, this`action, this`timeout, this`options, this`received
      ensures CurrentSnapshot() == Verdict(session, State().raw)
    {
      received := Received(State().raw);
      if received < 4 {
        phase := ReadingParameters;
        return;
      }
      var actionValue := ExactInteger(rawAction, UINT8_MAX);
      var optionsValue := ExactInteger(rawOptions, UINT32_MAX);
      var gcsValue := ExactInteger(rawGcs, UINT8_MAX);
      action := if actionValue.Some? && actionValue.value <= 7 then actionValue else None;
      timeout := if rawTimeout.value.Num? then Some(rawTimeout.value.value) else None;
      options := optionsValue;
      gcsId := gcsValue;
      phase := PolicyRejected;
      if action.None? {
        return;
      }
      if action.value != ALWAYS_LAND {
        return;
      }
      if rawTimeout.None? || !rawTimeout.value.Num? ||
         rawTimeout.value.value < MIN_TIMEOUT_S || rawTimeout.value.value > MAX_TIMEOUT_S
      {
        return;
      }
      if optionsValue.None? {
        return;
      }
      if Continues(optionsValue.value) {
        return;
      }
      if gcsValue.None? || gcsValue.value == 0 {
        return;
      }
      if session.None? || gcsValue.value != session.value {
        return;
      }
      phase := PolicyAccepted;
    }
  }
}
