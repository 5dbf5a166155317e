/** Freshness-windowed vehicle state with lazily pruned warnings. */
module VehicleStates {
  import opened FlightTypes

  const HEARTBEAT_TIMEOUT: Time := 3 * SECOND
  const GPS_TIMEOUT: Time := 5 * SECOND
  const POSITION_TIMEOUT: Time := 2 * SECOND
  const BATTERY_TIMEOUT: Time := 10 * SECOND
  const STATUS_TIMEOUT: Time := 5 * SECOND
  const WARNING_TIMEOUT: Time := 30 * SECOND
  const BLOCKING_TIMEOUT: Time := 5 * SECOND
  const MIN_BATTERY_PERCENT := 20
  const BATTERY_SENSOR: bv32 := 0x0200_0000
  const ARMED_FLAG := 128
  const SEVERITY_WARNING := 4

  datatype Warning = Warning(text: string, lastSeen: Time)

  /** What the last heartbeat said, and whether its sender has told its version. */
  datatype Link = Link(
    lastHeartbeat: Option<Time>,
    systemId: Option<Byte>,
    componentId: Option<Byte>,
    metadata: bool,
    vehicleType: Option<Byte>,
    autopilotType: Option<Byte>,
    flightMode: Option<int>,
    armed: bool)

  datatype Readings = Readings(
    lastGps: Option<Time>,
    lastPosition: Option<Time>,
    lastBattery: Option<Time>,
    lastStatus: Option<Time>,
    gpsFix: Option<Byte>,
    altitude: Option<real>,
    voltage: Option<real>,
    remaining: Option<int>,
    armingVoltage: Option<Double>,
    sensorsEnabled: bv32,
    sensorsHealthy: bv32)

  datatype State = State(link: Link, readings: Readings, warnings: seq<Warning>)

  const INITIAL :=
    State(Link(None, None, None, false, None, None, None, false),
          Readings(None, None, None, None, None, None, None, None, None, 0, 0), [])

  datatype Event =
    | Heartbeat(systemId: Byte, componentId: Byte, vehicleType: Byte, autopilotType: Byte, baseMode: Byte,
                customMode: int, at: Time)
    | Gps(fix: Byte, at: Time)
    | GlobalPosition(altitudeMm: int, at: Time)
    | Battery(voltage: Option<real>, current: Option<real>, remaining: Option<int>, at: Time)
    | ArmingVoltage(value: Double, at: Time)
    | AutopilotVersion(at: Time)
    | SystemStatus(enabled: bv32, healthy: bv32, voltage: Option<real>, current: Option<real>,
                   remaining: Option<int>, at: Time)
    | StatusText(severity: Byte, text: string, at: Time)
    | Look(at: Time)

  // --- Text ---

  function LowerChar(c: char): char {
    if 'A' <= c <= 'Z' then c - 'A' + 'a' else c
  }

  function Lower(text: string): string {
    seq(|text|, i requires 0 <= i < |text| => LowerChar(text[i]))
  }

  predicate OccursAt(text: string, part: string, i: nat) {
    i + |part| <= |text| && text[i..i + |part|] == part
  }

  predicate Contains(text: string, part: string) {
    exists i :: 0 <= i <= |text| && OccursAt(Lower(text), part, i)
  }

  predicate MentionsBattery(text: string) { Contains(text, "battery") }

  predicate Noted(severity: Byte, text: string) {
    text != "" && (severity <= SEVERITY_WARNING || Contains(text, "prearm:"))
  }

  // --- Warnings ---

  /** The first entry with this text, or the length when there is none. */
  function Find(ws: seq<Warning>, text: string): (k: nat)
    ensures k <= |ws|
    ensures k < |ws| ==> ws[k].text == text
    ensures forall j :: 0 <= j < k ==> ws[j].text != text
  {
    if ws == [] || ws[0].text == text then 0 else 1 + Find(ws[1..], text)
  }

  function Touch(ws: seq<Warning>, text: string, now: Time): seq<Warning> {
    var k := Find(ws, text);
    if k < |ws| then ws[k := Warning(text, now)] else ws + [Warning(text, now)]
  }

  predicate Fresh(seen: Option<Time>, now: Time, timeout: Time) {
    seen.Some? && now - seen.value <= timeout
  }

  function Prune(ws: seq<Warning>, now: Time): seq<Warning> {
    if ws == [] then []
    else (if now - ws[0].lastSeen <= WARNING_TIMEOUT then [ws[0]] else []) + Prune(ws[1..], now)
  }

  function Texts(ws: seq<Warning>): seq<string> {
    seq(|ws|, i requires 0 <= i < |ws| => ws[i].text)
  }

  // --- Steps ---

  function WithBattery(c: Readings, voltage: Option<real>, remaining: Option<int>, now: Time): Readings {
    c.(lastBattery := Some(now),
       voltage := if voltage.Some? then voltage else c.voltage,
       remaining := if remaining.Some? then remaining else c.remaining)
  }

  /** std::max(0.0, v): a NaN or negative report counts as no threshold. */
  function AtLeastZero(v: Double): Double {
    match v
    case NaN => Num(0.0)
    case Infinite(negative) => if negative then Num(0.0) else v
    case Num(x) => if x < 0.0 then Num(0.0) else v
  }

  /** The heartbeat ends a silence of more than 3 s, or comes from another system or component. */
  predicate Renews(l: Link, systemId: Byte, componentId: Byte, at: Time) {
    || (l.lastHeartbeat.Some? && !Fresh(l.lastHeartbeat, at, HEARTBEAT_TIMEOUT))
    || (l.systemId.Some? && l.systemId.value != systemId)
    || (l.componentId.Some? && l.componentId.value != componentId)
  }

  function StepLink(l: Link, e: Event): Link {
    match e
    case Heartbeat(id, comp, vehicleType, autopilotType, baseMode, customMode, at) =>
      Link(Some(at), Some(id), Some(comp), l.metadata && !Renews(l, id, comp, at),
           Some(vehicleType), Some(autopilotType), Some(customMode), baseMode >= ARMED_FLAG)
    case AutopilotVersion(_) => l.(metadata := true)
    case _ => l
  }

  function StepReadings(c: Readings, e: Event): Readings {
    match e
    case Gps(fix, at) => c.(lastGps := Some(at), gpsFix := Some(fix))
    case GlobalPosition(mm, at) => c.(lastPosition := Some(at), altitude := Some(mm as real / 1000.0))
    case Battery(voltage, _, remaining, at) => WithBattery(c, voltage, remaining, at)
    case ArmingVoltage(value, at) => c.(armingVoltage := Some(AtLeastZero(value)))
    case SystemStatus(enabled, healthy, voltage, current, remaining, at) =>
      var c1 := c.(sensorsEnabled := enabled, sensorsHealthy := healthy, lastStatus := Some(at));
      if voltage.Some? || current.Some? || remaining.Some? then WithBattery(c1, voltage, remaining, at) else c1
    case _ => c
  }

  function StepWarnings(ws: seq<Warning>, e: Event): seq<Warning> {
    match e
    case StatusText(severity, text, at) => if Noted(severity, text) then Touch(ws, text, at) else ws
    case Look(at) => Prune(ws, at)
    case _ => ws
  }

  function Step(s: State, e: Event): State {
    State(StepLink(s.link, e), StepReadings(s.readings, e), StepWarnings(s.warnings, e))
  }

  function Run(s: State, es: seq<Event>): State {
    if es == [] then s else Step(Run(s, es[..|es| - 1]), es[|es| - 1])
  }

  // --- The snapshot of a state whose warnings are already pruned ---

  predicate VoltageSuffices(c: Readings) {
    c.voltage.Some? && c.armingVoltage.Some? &&
    match c.armingVoltage.value
    case Num(threshold) => threshold == 0.0 || c.voltage.value >= threshold
    case _ => false
  }

  predicate StatusFresh(c: Readings, now: Time) { Fresh(c.lastStatus, now, STATUS_TIMEOUT) }

  predicate GpsReady(c: Readings, now: Time) {
    Fresh(c.lastGps, now, GPS_TIMEOUT) && c.gpsFix.Some? && c.gpsFix.value >= 3
  }

  predicate BatteryReady(c: Readings, now: Time, batteryWarning: bool) {
    && Fresh(c.lastBattery, now, BATTERY_TIMEOUT)
    && VoltageSuffices(c)
    && StatusFresh(c, now) && c.sensorsEnabled & BATTERY_SENSOR != 0 && c.sensorsHealthy & BATTERY_SENSOR != 0
    && !batteryWarning
    && (c.remaining.Some? ==> c.remaining.value >= MIN_BATTERY_PERCENT)
  }

  predicate HealthOk(c: Readings, now: Time) {
    StatusFresh(c, now) && c.sensorsEnabled & !c.sensorsHealthy == 0
  }

  function View(l: Link, c: Readings, now: Time, batteryWarning: bool, recentWarning: bool,
                texts: seq<string>): Vehicle {
    if !Fresh(l.lastHeartbeat, now, HEARTBEAT_TIMEOUT) then
      Vehicle(false, l.systemId, l.vehicleType, l.autopilotType, l.flightMode, l.armed, None,
              false, false, false, false,
              l.metadata, false, texts)
    else
      var gps, battery, health := GpsReady(c, now), BatteryReady(c, now, batteryWarning), HealthOk(c, now);
      Vehicle(true, l.systemId, l.vehicleType, l.autopilotType, l.flightMode, l.armed,
              if Fresh(c.lastPosition, now, POSITION_TIMEOUT) then c.altitude else None,
              gps, battery, health, gps && battery && health && !recentWarning,
              l.metadata, Fresh(c.lastBattery, now, BATTERY_TIMEOUT) && c.armingVoltage.Some?, texts)
  }

  predicate AnyBattery(ws: seq<Warning>) { exists k :: 0 <= k < |ws| && MentionsBattery(ws[k].text) }

  predicate AnyRecent(ws: seq<Warning>, now: Time) {
    exists k :: 0 <= k < |ws| && now - ws[k].lastSeen <= BLOCKING_TIMEOUT
  }

  function SnapshotOf(s: State, now: Time): Vehicle {
    var ws := Prune(s.warnings, now);
    View(s.link, s.readings, now, AnyBattery(ws), AnyRecent(ws, now), Texts(ws))
  }

  // --- The warnings are the plain text-to-last-seen map, whatever the schedule of looks ---

  predicate Monotone(es: seq<Event>) {
    forall i, j :: 0 <= i < j < |es| ==> es[i].at <= es[j].at
  }

  /** When a text was last reported, read off the history alone. */
  function LastSeen(es: seq<Event>, text: string): Option<Time> {
    if es == [] then None
    else
      var e := es[|es| - 1];
      if e.StatusText? && e.text == text && Noted(e.severity, text) then Some(e.at)
      else LastSeen(es[..|es| - 1], text)
  }

  ghost predicate Distinct(ws: seq<Warning>) {
    forall i, j :: 0 <= i < j < |ws| ==> ws[i].text != ws[j].text
  }

  predicate Holds(ws: seq<Warning>, text: string, seen: Time) {
    Warning(text, seen) in ws
  }

  lemma {:induction false} PruneKeepsFresh(ws: seq<Warning>, now: Time)
    requires Distinct(ws)
    ensures Distinct(Prune(ws, now))
    ensures forall w :: w in Prune(ws, now) <==> w in ws && now - w.lastSeen <= WARNING_TIMEOUT
  {
    if ws != [] {
      PruneKeepsFresh(ws[1..], now);
      assert ws == [ws[0]] + ws[1..];
      forall k | 0 <= k < |Prune(ws[1..], now)| ensures Prune(ws[1..], now)[k].text != ws[0].text {
        assert Prune(ws[1..], now)[k] in ws[1..];
      }
    }
  }

  lemma TouchMembers(ws: seq<Warning>, text: string, now: Time)
    requires Distinct(ws)
    ensures Distinct(Touch(ws, text, now))
    ensures forall w :: w in Touch(ws, text, now) <==> w == Warning(text, now) || (w in ws && w.text != text)
  {
    var k, t := Find(ws, text), Touch(ws, text, now);
    forall w ensures w in t <==> w == Warning(text, now) || (w in ws && w.text != text) {
      if w == Warning(text, now) {
        assert t[k] == w;
      } else if w in ws && w.text != text {
        var j :| 0 <= j < |ws| && ws[j] == w;
        assert t[j] == w;
      }
    }
  }

  ghost predicate WarningsInv(ws: seq<Warning>, es: seq<Event>, now: Time) {
    && Distinct(ws)
    && (forall w :: w in ws ==> LastSeen(es, w.text) == Some(w.lastSeen))
    && (forall text :: LastSeen(es, text).Some? ==>
          Holds(ws, text, LastSeen(es, text).value) || now - LastSeen(es, text).value > WARNING_TIMEOUT)
  }

  lemma {:induction false} SeenSnoc(es: seq<Event>, e: Event, text: string)
    ensures LastSeen(es + [e], text) ==
            if e.StatusText? && e.text == text && Noted(e.severity, text) then Some(e.at) else LastSeen(es, text)
  {
    assert (es + [e])[..|es|] == es;
  }

  lemma UnnotedKeeps(ws: seq<Warning>, es: seq<Event>, e: Event)
    requires WarningsInv(ws, es, e.at) && !(e.StatusText? && Noted(e.severity, e.text))
    ensures WarningsInv(ws, es + [e], e.at)
  {
    forall text ensures LastSeen(es + [e], text) == LastSeen(es, text) {
      SeenSnoc(es, e, text);
    }
  }

  lemma TouchKeeps(ws: seq<Warning>, es: seq<Event>, e: Event)
    requires WarningsInv(ws, es, e.at) && e.StatusText? && Noted(e.severity, e.text)
    ensures WarningsInv(Touch(ws, e.text, e.at), es + [e], e.at)
  {
    var t := Touch(ws, e.text, e.at);
    TouchMembers(ws, e.text, e.at);
    forall text ensures LastSeen(es + [e], text) == if text == e.text then Some(e.at) else LastSeen(es, text) {
      SeenSnoc(es, e, text);
    }
    assert Warning(e.text, e.at) in t;
    forall text | text != e.text && LastSeen(es, text).Some? && Holds(ws, text, LastSeen(es, text).value)
      ensures Holds(t, text, LastSeen(es, text).value)
    {
      assert Warning(text, LastSeen(es, text).value) in t;
    }
  }

  lemma PruneKeeps(ws: seq<Warning>, es: seq<Event>, now: Time)
    requires WarningsInv(ws, es, now)
    ensures WarningsInv(Prune(ws, now), es, now)
  {
    var pruned := Prune(ws, now);
    PruneKeepsFresh(ws, now);
    forall text | LastSeen(es, text).Some? && Holds(ws, text, LastSeen(es, text).value)
      ensures Holds(pruned, text, LastSeen(es, text).value) || now - LastSeen(es, text).value > WARNING_TIMEOUT
    {
      assert Warning(text, LastSeen(es, text).value) in ws;
    }
  }

  lemma {:induction false} WarningsAlways(es: seq<Event>, now: Time)
    requires Monotone(es) && (es != [] ==> es[|es| - 1].at <= now)
    ensures WarningsInv(Run(INITIAL, es).warnings, es, now)
  {
    if es != [] {
      var front, e := es[..|es| - 1], es[|es| - 1];
      var ws := Run(INITIAL, front).warnings;
      assert es == front + [e];
      WarningsAlways(front, e.at);
      if e.StatusText? && Noted(e.severity, e.text) {
        TouchKeeps(ws, front, e);
      } else {
        UnnotedKeeps(ws, front, e);
        if e.Look? {
          PruneKeeps(ws, es, e.at);
        }
      }
      assert WarningsInv(StepWarnings(ws, e), es, e.at);
    }
  }

  /** A text is shown at `now` exactly when it was last reported at most 30 s
      before, and once only, however the looks in between were scheduled. */
  lemma {:induction false} WarningsAgree(es: seq<Event>, now: Time)
    requires Monotone(es) && (es != [] ==> es[|es| - 1].at <= now)
    ensures var ws := Prune(Run(INITIAL, es).warnings, now);
            && Distinct(ws)
            && (forall text, seen :: Holds(ws, text, seen) <==>
                  LastSeen(es, text) == Some(seen) && now - seen <= WARNING_TIMEOUT)
  {
    WarningsAlways(es, now);
    PruneKeepsFresh(Run(INITIAL, es).warnings, now);
  }

  /** The history with its looks left out. */
  function Reports(es: seq<Event>): seq<Event> {
    if es == [] then []
    else Reports(es[..|es| - 1]) + (if es[|es| - 1].Look? then [] else [es[|es| - 1]])
  }

  lemma {:induction false} LooksOnlyPrune(es: seq<Event>, text: string)
    ensures LastSeen(es, text) == LastSeen(Reports(es), text)
    ensures Run(INITIAL, es).link == Run(INITIAL, Reports(es)).link
    ensures Run(INITIAL, es).readings == Run(INITIAL, Reports(es)).readings
  {
    if es != [] {
      var front, e := es[..|es| - 1], es[|es| - 1];
      LooksOnlyPrune(front, text);
      if e.Look? {
        assert Reports(es) == Reports(front);
      } else {
        ReportsSnoc(Reports(front), e, text);
      }
    }
  }

  lemma {:induction false} ReportsSnoc(es: seq<Event>, e: Event, text: string)
    ensures Run(INITIAL, es + [e]) == Step(Run(INITIAL, es), e)
    ensures LastSeen(es + [e], text) ==
            if e.StatusText? && e.text == text && Noted(e.severity, text) then Some(e.at) else LastSeen(es, text)
  {
    assert (es + [e])[..|es|] == es;
  }

  /** Snapshots depend on the reports and the time only: however often the state
      was looked at in between, every field is the same and so is the set of
      warnings (not their order, see OrderDependsOnSchedule). */
  lemma {:induction false} ScheduleIsIrrelevant(a: seq<Event>, b: seq<Event>, now: Time)
    requires Monotone(a) && (a != [] ==> a[|a| - 1].at <= now)
    requires Monotone(b) && (b != [] ==> b[|b| - 1].at <= now)
    requires Reports(a) == Reports(b)
    ensures var v, w := SnapshotOf(Run(INITIAL, a), now), SnapshotOf(Run(INITIAL, b), now);
            && v.(warnings := []) == w.(warnings := [])
            && (forall text :: text in v.warnings <==> text in w.warnings)
  {
    LooksOnlyPrune(a, "");
    LooksOnlyPrune(b, "");
    SameWarnings(a, b, now);
    SameMembersSameSnapshot(Run(INITIAL, a), Run(INITIAL, b), now);
  }

  lemma {:induction false} SameWarnings(a: seq<Event>, b: seq<Event>, now: Time)
    requires Monotone(a) && (a != [] ==> a[|a| - 1].at <= now)
    requires Monotone(b) && (b != [] ==> b[|b| - 1].at <= now)
    requires Reports(a) == Reports(b)
    ensures forall w :: w in Prune(Run(INITIAL, a).warnings, now) <==> w in Prune(Run(INITIAL, b).warnings, now)
  {
    WarningsAgree(a, now);
    WarningsAgree(b, now);
    var ws, us := Prune(Run(INITIAL, a).warnings, now), Prune(Run(INITIAL, b).warnings, now);
    forall w ensures w in ws <==> w in us {
      LooksOnlyPrune(a, w.text);
      LooksOnlyPrune(b, w.text);
      assert Holds(ws, w.text, w.lastSeen) <==> Holds(us, w.text, w.lastSeen);
    }
  }

  lemma {:induction false} SameMembersSameSnapshot(s: State, t: State, now: Time)
    requires s.link == t.link && s.readings == t.readings
    requires forall w :: w in Prune(s.warnings, now) <==> w in Prune(t.warnings, now)
    ensures SnapshotOf(s, now).(warnings := []) == SnapshotOf(t, now).(warnings := [])
    ensures forall text :: text in SnapshotOf(s, now).warnings <==> text in SnapshotOf(t, now).warnings
  {
    SnapshotIsView(s, now);
    SnapshotIsView(t, now);
    var ws, us := Prune(s.warnings, now), Prune(t.warnings, now);
    SameMembersSameVerdicts(ws, us, now);
    SameMembersSameTexts(ws, us);
  }

  /** Of the warnings a snapshot reads the two verdicts and the list of texts. */
  lemma {:induction false} SnapshotIsView(s: State, now: Time)
    ensures var ws := Prune(s.warnings, now);
            && SnapshotOf(s, now).(warnings := []) ==
               View(s.link, s.readings, now, AnyBattery(ws), AnyRecent(ws, now), [])
            && SnapshotOf(s, now).warnings == Texts(ws)
  {
    var ws := Prune(s.warnings, now);
    ViewCarriesTexts(s.link, s.readings, now, AnyBattery(ws), AnyRecent(ws, now), Texts(ws));
  }

  lemma ViewCarriesTexts(l: Link, c: Readings, now: Time, batteryWarning: bool, recentWarning: bool, texts: seq<string>)
    ensures var v := View(l, c, now, batteryWarning, recentWarning, texts);
            v.(warnings := []) == View(l, c, now, batteryWarning, recentWarning, []) && v.warnings == texts
  {
  }

  lemma SameMembersSameVerdicts(ws: seq<Warning>, us: seq<Warning>, now: Time)
    requires forall w :: w in ws <==> w in us
    ensures AnyBattery(ws) == AnyBattery(us) && AnyRecent(ws, now) == AnyRecent(us, now)
  {
    BatteryCarries(ws, us);
    BatteryCarries(us, ws);
    RecentCarries(ws, us, now);
    RecentCarries(us, ws, now);
  }

  lemma BatteryCarries(ws: seq<Warning>, us: seq<Warning>)
    requires forall w :: w in ws ==> w in us
    ensures AnyBattery(ws) ==> AnyBattery(us)
  {
    if AnyBattery(ws) {
      var k :| 0 <= k < |ws| && MentionsBattery(ws[k].text);
      assert ws[k] in us;
      var j :| 0 <= j < |us| && us[j] == ws[k];
    }
  }

  lemma RecentCarries(ws: seq<Warning>, us: seq<Warning>, now: Time)
    requires forall w :: w in ws ==> w in us
    ensures AnyRecent(ws, now) ==> AnyRecent(us, now)
  {
    if AnyRecent(ws, now) {
      var k :| 0 <= k < |ws| && now - ws[k].lastSeen <= BLOCKING_TIMEOUT;
      assert ws[k] in us;
      var j :| 0 <= j < |us| && us[j] == ws[k];
    }
  }

  lemma SameMembersSameTexts(ws: seq<Warning>, us: seq<Warning>)
    requires forall w :: w in ws <==> w in us
    ensures forall text :: text in Texts(ws) <==> text in Texts(us)
  {
    TextsCarry(ws, us);
    TextsCarry(us, ws);
  }

  lemma TextsCarry(ws: seq<Warning>, us: seq<Warning>)
    requires forall w :: w in ws ==> w in us
    ensures forall text :: text in Texts(ws) ==> text in Texts(us)
  {
    forall text | text in Texts(ws) ensures text in Texts(us) {
      var k :| 0 <= k < |ws| && ws[k].text == text;
      assert ws[k] in us;
      var j :| 0 <= j < |us| && us[j] == ws[k];
      assert Texts(us)[j] == text;
    }
  }

  const REPORTED_A := StatusText(4, "A", 0)
  const REPORTED_B := StatusText(4, "B", SECOND)
  const LOOKED := Look(31 * SECOND)
  const AGAIN := StatusText(4, "A", 32 * SECOND)

  /** Reported at 0 and 1 s and again at 32 s, "A" comes after "B" if a look at
      31 s pruned it in between, and before "B" otherwise. */
  lemma OrderDependsOnSchedule()
    ensures Reports([REPORTED_A, REPORTED_B, LOOKED, AGAIN]) == Reports([REPORTED_A, REPORTED_B, AGAIN])
    ensures Texts(Run(INITIAL, [REPORTED_A, REPORTED_B, LOOKED, AGAIN]).warnings) == ["B", "A"]
    ensures Texts(Run(INITIAL, [REPORTED_A, REPORTED_B, AGAIN]).warnings) == ["A", "B"]
  {
    var both := [REPORTED_A, REPORTED_B];
    TwoReported();
    RunSnoc(both, LOOKED);
    WarningSnoc(both + [LOOKED], "A", 32 * SECOND);
    WarningSnoc(both, "A", 32 * SECOND);
    assert both + [LOOKED] + [AGAIN] == [REPORTED_A, REPORTED_B, LOOKED, AGAIN];
    assert both + [AGAIN] == [REPORTED_A, REPORTED_B, AGAIN];
    TwoWarnings();
  }

  lemma {:induction false} WarningSnoc(es: seq<Event>, text: string, now: Time)
    requires text != ""
    ensures var e := StatusText(4, text, now);
            && Run(INITIAL, es + [e]).warnings == Touch(Run(INITIAL, es).warnings, text, now)
            && Reports(es + [e]) == Reports(es) + [e]
  {
    RunSnoc(es, StatusText(4, text, now));
  }

  lemma TwoReported()
    ensures Run(INITIAL, [REPORTED_A, REPORTED_B]).warnings == [Warning("A", 0), Warning("B", SECOND)]
  {
    WarningSnoc([], "A", 0);
    WarningSnoc([REPORTED_A], "B", SECOND);
    assert [] + [REPORTED_A] == [REPORTED_A] && [REPORTED_A] + [REPORTED_B] == [REPORTED_A, REPORTED_B];
    TwoWarnings();
  }

  lemma TwoWarnings()
    ensures var wa, wb := Warning("A", 0), Warning("B", SECOND);
            && Touch([], "A", 0) == [wa] && Touch([wa], "B", SECOND) == [wa, wb]
            && Prune([wa, wb], 31 * SECOND) == [wb]
            && Touch([wb], "A", 32 * SECOND) == [wb, Warning("A", 32 * SECOND)]
            && Touch([wa, wb], "A", 32 * SECOND) == [Warning("A", 32 * SECOND), wb]
  {
    var wa, wb := Warning("A", 0), Warning("B", SECOND);
    assert [wa, wb][1..] == [wb] && [wb][1..] == [];
    assert Prune([wb], 31 * SECOND) == [wb];
  }

  lemma {:induction false} RunSnoc(es: seq<Event>, e: Event)
    ensures Run(INITIAL, es + [e]).warnings == StepWarnings(Run(INITIAL, es).warnings, e)
    ensures Reports(es + [e]) == Reports(es) + (if e.Look? then [] else [e])
  {
    assert (es + [e])[..|es|] == es;
  }

  /** A noted text that mentions the battery keeps the vehicle from being armable
      in every snapshot of the following 30 s, whatever else is reported. */
  lemma {:induction false} BatteryWarningBlocksArming(es: seq<Event>, k: nat, now: Time)
    requires Monotone(es) && k < |es| && es[|es| - 1].at <= now
    requires es[k].StatusText? && Noted(es[k].severity, es[k].text) && MentionsBattery(es[k].text)
    requires now - es[k].at <= WARNING_TIMEOUT
    ensures var v := SnapshotOf(Run(INITIAL, es), now);
            !v.batteryReady && !v.armable
  {
    WarningsAgree(es, now);
    SeenSince(es, k);
    var ws := Prune(Run(INITIAL, es).warnings, now);
    var text := es[k].text;
    assert Holds(ws, text, LastSeen(es, text).value);
    var j :| 0 <= j < |ws| && ws[j] == Warning(text, LastSeen(es, text).value);
    assert MentionsBattery(ws[j].text);
  }

  lemma {:induction false} SeenSince(es: seq<Event>, k: nat)
    requires Monotone(es) && k < |es| && es[k].StatusText? && Noted(es[k].severity, es[k].text)
    ensures LastSeen(es, es[k].text).Some? && es[k].at <= LastSeen(es, es[k].text).value <= es[|es| - 1].at
  {
    if k < |es| - 1 {
      SeenSince(es[..|es| - 1], k);
    }
  }

  // --- Whether the controller has told its version ---

  /** The last heartbeat of a history. */
  function LastBeat(es: seq<Event>): (b: Option<Event>)
    ensures b.Some? ==> b.value.Heartbeat?
  {
    if es == [] then None else if es[|es| - 1].Heartbeat? then Some(es[|es| - 1]) else LastBeat(es[..|es| - 1])
  }

  /** Event k is a heartbeat that reconnects after more than 3 s of silence, or
      whose sender is not the sender of the heartbeat before. */
  predicate NewController(es: seq<Event>, k: nat)
    requires k < |es|
  {
    var before := LastBeat(es[..k]);
    es[k].Heartbeat? && before.Some? &&
    (es[k].at - before.value.at > HEARTBEAT_TIMEOUT ||
     es[k].systemId != before.value.systemId || es[k].componentId != before.value.componentId)
  }

  ghost predicate AnsweredAt(es: seq<Event>, k: nat) {
    && k < |es| && es[k].AutopilotVersion?
    && forall j :: k < j < |es| ==> !NewController(es, j)
  }

  /** A version was heard, and neither a reconnection nor another controller since. */
  ghost predicate Answered(es: seq<Event>) { exists k: nat :: AnsweredAt(es, k) }

  lemma {:induction false} LinkIsLastBeat(es: seq<Event>)
    ensures var (l, b) := (Run(INITIAL, es).link, LastBeat(es));
            if b.None? then l.lastHeartbeat.None? && l.systemId.None? && l.componentId.None?
            else
              && l.lastHeartbeat == Some(b.value.at) && l.systemId == Some(b.value.systemId)
              && l.componentId == Some(b.value.componentId)
  {
    if es != [] {
      LinkIsLastBeat(es[..|es| - 1]);
    }
  }

  lemma AnsweredSnoc(es: seq<Event>)
    requires es != []
    ensures var n := |es| - 1;
            Answered(es) <==> es[n].AutopilotVersion? || (Answered(es[..n]) && !NewController(es, n))
  {
    var n := |es| - 1;
    forall k: nat | k < n ensures AnsweredAt(es, k) <==> AnsweredAt(es[..n], k) && !NewController(es, n) {
      forall j | k < j < n ensures NewController(es, j) == NewController(es[..n], j) {
        assert es[..n][..j] == es[..j];
      }
      if AnsweredAt(es, k) {
        assert !NewController(es, n);
        forall j | k < j < n ensures !NewController(es[..n], j) {
          assert !NewController(es, j);
        }
      }
    }
    if es[n].AutopilotVersion? {
      assert AnsweredAt(es, n);
    }
    if Answered(es[..n]) && !NewController(es, n) {
      var k: nat :| AnsweredAt(es[..n], k);
      assert AnsweredAt(es, k);
    }
  }

  /** The metadata is known exactly while the current controller's connection has
      answered: a reconnection or a change of controller forgets it. */
  lemma {:induction false} MetadataExactlyWhenAnswered(es: seq<Event>)
    ensures Run(INITIAL, es).link.metadata <==> Answered(es)
  {
    if es != [] {
      var n := |es| - 1;
      MetadataExactlyWhenAnswered(es[..n]);
      LinkIsLastBeat(es[..n]);
      AnsweredSnoc(es);
    }
  }

  /** After a reconnection or a change of controller only a new answer counts. */
  lemma NewControllerForgets(es: seq<Event>, k: nat)
    requires k < |es| && NewController(es, k)
    ensures Answered(es) <==> exists j: nat :: k < j && AnsweredAt(es, j)
  {
    forall j: nat | AnsweredAt(es, j) ensures k < j {
      assert es[j].AutopilotVersion? && es[k].Heartbeat?;
    }
  }

  // --- The component ---

  class VehicleState {
    var lastHeartbeat: Option<Time>
    var lastGps: Option<Time>
    var lastPosition: Option<Time>
    var lastBattery: Option<Time>
    var lastStatus: Option<Time>
    var systemId: Option<Byte>
    var componentId: Option<Byte>
    var metadata: bool
    var vehicleType: Option<Byte>
    var autopilotType: Option<Byte>
    var flightMode: Option<int>
    var armed: bool
    var gpsFix: Option<Byte>
    var altitude: Option<real>
    var voltage: Option<real>
    var remaining: Option<int>
    var armingVoltage: Option<Double>
    var sensorsEnabled: bv32
    var sensorsHealthy: bv32
    var warnings: seq<Warning>

    function LinkValue(): Link
      reads this`lastHeartbeat, this`systemId, this`componentId, this`metadata
      reads this`vehicleType, this`autopilotType, this`flightMode, this`armed
    {
      Link(lastHeartbeat, systemId, componentId, metadata, vehicleType, autopilotType, flightMode, armed)
    }

    function ReadingsValue(): Readings
      reads this`lastGps, this`lastPosition, this`lastBattery, this`lastStatus, this`gpsFix, this`altitude
      reads this`voltage, this`remaining, this`armingVoltage, this`sensorsEnabled, this`sensorsHealthy
    {
      Readings(lastGps, lastPosition, lastBattery, lastStatus, gpsFix, altitude, voltage, remaining, armingVoltage,
               sensorsEnabled, sensorsHealthy)
    }

    function Value(): State
      reads this
    {
      State(LinkValue(), ReadingsValue(), warnings)
    }

    constructor ()
      ensures Value() == INITIAL
    {
      lastHeartbeat, lastGps, lastPosition, lastBattery, lastStatus := None, None, None, None, None;
      systemId, componentId, metadata := None, None, false;
      vehicleType, autopilotType, flightMode, armed := None, None, None, false;
      gpsFix, altitude, voltage, remaining, armingVoltage := None, None, None, None, None;
      sensorsEnabled, sensorsHealthy, warnings := 0, 0, [];
    }

    method OnHeartbeat(id: Byte, comp: Byte, vtype: Byte, atype: Byte, baseMode: Byte, customMode: int, now: Time)
      modifies this`lastHeartbeat, this`systemId, this`componentId, this`metadata
      modifies this`vehicleType, this`autopilotType, this`flightMode, this`armed
      ensures LinkValue() == StepLink(old(LinkValue()), Heartbeat(id, comp, vtype, atype, baseMode, customMode, now))
    {
      var reconnecting := lastHeartbeat.Some? && !Fresh(lastHeartbeat, now, HEARTBEAT_TIMEOUT);
      var controllerChanged :=
        (systemId.Some? && systemId.value != id) || (componentId.Some? && componentId.value != comp);
      if reconnecting || controllerChanged {
        metadata := false;
      }
      lastHeartbeat := Some(now);
      systemId := Some(id);
      componentId := Some(comp);
      vehicleType := Some(vtype);
      autopilotType := Some(atype);
      flightMode := Some(customMode);
      armed := baseMode >= ARMED_FLAG;
    }

    method OnGps(fix: Byte, now: Time)
      modifies this`lastGps, this`gpsFix
      ensures ReadingsValue() == StepReadings(old(ReadingsValue()), Gps(fix, now))
    {
      lastGps, gpsFix := Some(now), Some(fix);
    }

    method OnGlobalPosition(mm: int, now: Time)
      modifies this`lastPosition, this`altitude
      ensures ReadingsValue() == StepReadings(old(ReadingsValue()), GlobalPosition(mm, now))
    {
      lastPosition, altitude := Some(now), Some(mm as real / 1000.0);
    }

    method UpdateBattery(v: Option<real>, r: Option<int>, now: Time)
      modifies this`lastBattery, this`voltage, this`remaining
      ensures ReadingsValue() == WithBattery(old(ReadingsValue()), v, r, now)
    {
      lastBattery := Some(now);
      if v.Some? {
        voltage := v;
      }
      if r.Some? {
        remaining := r;
      }
    }

    method OnBattery(v: Option<real>, current: Option<real>, r: Option<int>, now: Time)
      modifies this`lastBattery, this`voltage, this`remaining
      ensures ReadingsValue() == StepReadings(old(ReadingsValue()), Battery(v, current, r, now))
    {
      UpdateBattery(v, r, now);
    }

    method OnArmingVoltage(v: Double, now: Time)
      modifies this`armingVoltage
      ensures ReadingsValue() == StepReadings(old(ReadingsValue()), ArmingVoltage(v, now))
    {
      armingVoltage := Some(AtLeastZero(v));
    }

    method OnAutopilotMetadata(now: Time)
      modifies this`metadata
      ensures LinkValue() == StepLink(old(LinkValue()), AutopilotVersion(now))
    {
      metadata := true;
    }

    method OnSystemStatus(enabled: bv32, healthy: bv32, v: Option<real>, current: Option<real>, r: Option<int>,
                          now: Time)
      modifies this`sensorsEnabled, this`sensorsHealthy, this`lastStatus, this`lastBattery, this`voltage, this`remaining
      ensures ReadingsValue() == StepReadings(old(ReadingsValue()), SystemStatus(enabled, healthy, v, current, r, now))
    {
      sensorsEnabled, sensorsHealthy, lastStatus := enabled, healthy, Some(now);
      if v.Some? || current.Some? || r.Some? {
        UpdateBattery(v, r, now);
      }
    }

    method OnStatusText(severity: Byte, text: string, now: Time)
      modifies this`warnings
      ensures warnings == StepWarnings(old(warnings), StatusText(severity, text, now))
    {
      if text == "" || (severity > SEVERITY_WARNING && !Contains(text, "prearm:")) {
        return;
      }
      var existing := Find(warnings, text);
      if existing < |warnings| {
        warnings := warnings[existing := Warning(text, now)];
        return;
      }
      warnings := warnings + [Warning(text, now)];
    }

    /** Taking a snapshot prunes the warnings for good. */
    method Snapshot(now: Time) returns (v: Vehicle)
      modifies this`warnings
      ensures v == SnapshotOf(old(Value()), now)
      ensures warnings == StepWarnings(old(warnings), Look(now))
    {
      warnings := Prune(warnings, now);
      v := View(LinkValue(), ReadingsValue(), now, AnyBattery(warnings), AnyRecent(warnings, now), Texts(warnings));
    }

    /** The readings among the telemetry messages. */
    method HandleReading(e: Event)
      requires e.Gps? || e.GlobalPosition? || e.Battery? || e.ArmingVoltage? || e.SystemStatus?
      modifies this`lastGps, this`lastPosition, this`lastBattery, this`lastStatus, this`gpsFix, this`altitude
      modifies this`voltage, this`remaining, this`armingVoltage, this`sensorsEnabled, this`sensorsHealthy
      ensures ReadingsValue() == StepReadings(old(ReadingsValue()), e)
    {
      match e
      case Gps(fix, now) => OnGps(fix, now);
      case GlobalPosition(mm, now) => OnGlobalPosition(mm, now);
      case Battery(v, current, r, now) => OnBattery(v, current, r, now);
      case ArmingVoltage(v, now) => OnArmingVoltage(v, now);
      case SystemStatus(enabled, healthy, v, current, r, now) => OnSystemStatus(enabled, healthy, v, current, r, now);
    }

    /** The decoder's dispatch of one telemetry message. */
    method Handle(e: Event)
      requires !e.Look?
      modifies this
      ensures LinkValue() == StepLink(old(LinkValue()), e)
      ensures ReadingsValue() == StepReadings(old(ReadingsValue()), e)
      ensures warnings == StepWarnings(old(warnings), e)
    {
      match e
      case Heartbeat(id, comp, vtype, atype, baseMode, customMode, now) =>
        OnHeartbeat(id, comp, vtype, atype, baseMode, customMode, now);
      case AutopilotVersion(now) => OnAutopilotMetadata(now);
      case StatusText(severity, text, now) => OnStatusText(severity, text, now);
      case Look(_) => assert false;
      case _ => HandleReading(e);
    }
  }
}
