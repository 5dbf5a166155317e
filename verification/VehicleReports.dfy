/** What a snapshot says, read off the reports alone: times in nanoseconds, masks
    and limits as the protocol and the program define them. */
module VehicleReports {
  import opened FlightTypes
  import opened VehicleStates

  // --- The last report of each kind ---

  function Last(es: seq<Event>, kind: Event -> bool): (e: Option<Event>)
    ensures e.Some? ==> kind(e.value)
  {
    if es == [] then None else if kind(es[|es| - 1]) then Some(es[|es| - 1]) else Last(es[..|es| - 1], kind)
  }

  predicate IsBeat(e: Event) { e.Heartbeat? }
  predicate IsGps(e: Event) { e.Gps? }
  predicate IsPosition(e: Event) { e.GlobalPosition? }
  predicate IsStatus(e: Event) { e.SystemStatus? }
  predicate IsThreshold(e: Event) { e.ArmingVoltage? }

  /** A battery message, or a system status that carries a battery value. */
  predicate IsPower(e: Event) {
    e.Battery? || (e.SystemStatus? && (e.voltage.Some? || e.current.Some? || e.remaining.Some?))
  }

  predicate IsVoltage(e: Event) { (e.Battery? || e.SystemStatus?) && e.voltage.Some? }
  predicate IsRemaining(e: Event) { (e.Battery? || e.SystemStatus?) && e.remaining.Some? }

  predicate Recent(e: Option<Event>, now: Time, window: Time) { e.Some? && now - e.value.at <= window }

  // --- Texts ---

  /** The part at position i, each letter in either case. */
  predicate SpelledAt(text: string, i: nat, lower: string, upper: string)
    requires |lower| == |upper|
  {
    i + |lower| <= |text| && forall k :: 0 <= k < |lower| ==> text[i + k] == lower[k] || text[i + k] == upper[k]
  }

  ghost predicate Says(text: string, lower: string, upper: string)
    requires |lower| == |upper|
  {
    exists i: nat :: SpelledAt(text, i, lower, upper)
  }

  /** Severity WARNING or worse, or a pre-arm message of any severity. */
  ghost predicate Warns(e: Event) {
    e.StatusText? && e.text != "" && (e.severity <= 4 || Says(e.text, "prearm:", "PREARM:"))
  }

  ghost predicate WarnedAt(es: seq<Event>, k: nat, now: Time, window: Time) {
    k < |es| && Warns(es[k]) && now - es[k].at <= window
  }

  ghost predicate Warned(es: seq<Event>, now: Time, window: Time) { exists k: nat :: WarnedAt(es, k, now, window) }

  ghost predicate Reported(es: seq<Event>, text: string, now: Time, window: Time) {
    exists k: nat :: WarnedAt(es, k, now, window) && es[k].text == text
  }

  ghost predicate BatteryWarned(es: seq<Event>, now: Time, window: Time) {
    exists k: nat :: WarnedAt(es, k, now, window) && Says(es[k].text, "battery", "BATTERY")
  }

  // --- What is to be shown ---

  predicate Connected(es: seq<Event>, now: Time) { Recent(Last(es, IsBeat), now, 3_000_000_000) }

  predicate GpsUsable(es: seq<Event>, now: Time) {
    var gps := Last(es, IsGps);
    Recent(gps, now, 5_000_000_000) && gps.value.fix >= 3
  }

  function EnabledSensors(es: seq<Event>): bv32 {
    var status := Last(es, IsStatus);
    if status.Some? then status.value.enabled else 0
  }

  function HealthySensors(es: seq<Event>): bv32 {
    var status := Last(es, IsStatus);
    if status.Some? then status.value.healthy else 0
  }

  /** No sensor is enabled and not healthy. */
  predicate SensorsHealthy(es: seq<Event>, now: Time) {
    && Recent(Last(es, IsStatus), now, 5_000_000_000)
    && EnabledSensors(es) & !HealthySensors(es) == 0
  }

  predicate BatterySensorHealthy(es: seq<Event>, now: Time) {
    && Recent(Last(es, IsStatus), now, 5_000_000_000)
    && EnabledSensors(es) & HealthySensors(es) & 0x0200_0000 == 0x0200_0000
  }

  /** The arming threshold counts as zero unless it is positive; NaN is not. */
  predicate VoltageMeets(voltage: real, threshold: Double) {
    match threshold
    case NaN => true
    case Infinite(negative) => negative
    case Num(t) => t <= 0.0 || voltage >= t
  }

  ghost predicate BatteryUsable(es: seq<Event>, now: Time) {
    var (voltage, threshold, remaining) := (Last(es, IsVoltage), Last(es, IsThreshold), Last(es, IsRemaining));
    && Recent(Last(es, IsPower), now, 10_000_000_000)
    && voltage.Some? && threshold.Some? && VoltageMeets(voltage.value.voltage.value, threshold.value.value)
    && BatterySensorHealthy(es, now)
    && !BatteryWarned(es, now, 30_000_000_000)
    && (remaining.Some? ==> remaining.value.remaining.value >= 20)
  }

  function Altitude(es: seq<Event>, now: Time): Option<real> {
    var position := Last(es, IsPosition);
    if Recent(position, now, 2_000_000_000) then Some(position.value.altitudeMm as real / 1000.0) else None
  }

  /** The fields of the last heartbeat, fresh or not. */
  predicate TellsBeat(v: Vehicle, beat: Option<Event>)
    requires beat.Some? ==> beat.value.Heartbeat?
  {
    if beat.None? then
      v.systemId.None? && v.vehicleType.None? && v.autopilotType.None? && v.flightMode.None? && !v.armed
    else
      var b := beat.value;
      && v.systemId == Some(b.systemId) && v.vehicleType == Some(b.vehicleType)
      && v.autopilotType == Some(b.autopilotType) && v.flightMode == Some(b.customMode)
      && (v.armed <==> b.baseMode / 128 % 2 == 1)
  }

  /** A snapshot of this history at this time. */
  ghost predicate Shows(v: Vehicle, es: seq<Event>, now: Time) {
    var linked := Connected(es, now);
    && v.connected == linked && TellsBeat(v, Last(es, IsBeat))
    && (v.gpsReady <==> linked && GpsUsable(es, now))
    && (v.batteryReady <==> linked && BatteryUsable(es, now))
    && (v.healthOk <==> linked && SensorsHealthy(es, now))
    && (v.armable <==> v.gpsReady && v.batteryReady && v.healthOk && !Warned(es, now, 5_000_000_000))
    && v.relativeAltitude == (if linked then Altitude(es, now) else None)
    && (v.metadataKnown <==> Answered(es))
    && (v.armingVoltageKnown <==>
          linked && Recent(Last(es, IsPower), now, 10_000_000_000) && Last(es, IsThreshold).Some?)
    && (forall text :: text in v.warnings <==> Reported(es, text, now, 30_000_000_000))
    && (forall i, j :: 0 <= i < j < |v.warnings| ==> v.warnings[i] != v.warnings[j])
  }

  // --- The state holds the last reports ---

  function AtOf(e: Option<Event>): Option<Time> { if e.Some? then Some(e.value.at) else None }

  ghost predicate HoldsLink(l: Link, es: seq<Event>) {
    var beat := Last(es, IsBeat);
    if beat.None? then l.(metadata := false) == INITIAL.link
    else
      var b := beat.value;
      l == Link(Some(b.at), Some(b.systemId), Some(b.componentId), l.metadata, Some(b.vehicleType),
                Some(b.autopilotType), Some(b.customMode), b.baseMode / 128 % 2 == 1)
  }

  ghost predicate HoldsPosition(c: Readings, es: seq<Event>) {
    var (gps, position) := (Last(es, IsGps), Last(es, IsPosition));
    && c.lastGps == AtOf(gps) && c.gpsFix == (if gps.Some? then Some(gps.value.fix) else None)
    && c.lastPosition == AtOf(position)
    && c.altitude == (if position.Some? then Some(position.value.altitudeMm as real / 1000.0) else None)
  }

  ghost predicate HoldsPower(c: Readings, es: seq<Event>) {
    var threshold := Last(es, IsThreshold);
    && c.lastBattery == AtOf(Last(es, IsPower))
    && c.armingVoltage == (if threshold.Some? then Some(AtLeastZero(threshold.value.value)) else None)
  }

  ghost predicate HoldsCharge(c: Readings, es: seq<Event>) {
    var (voltage, remaining) := (Last(es, IsVoltage), Last(es, IsRemaining));
    && c.voltage == (if voltage.Some? then voltage.value.voltage else None)
    && c.remaining == (if remaining.Some? then remaining.value.remaining else None)
  }

  ghost predicate HoldsStatus(c: Readings, es: seq<Event>) {
    && c.lastStatus == AtOf(Last(es, IsStatus))
    && c.sensorsEnabled == EnabledSensors(es) && c.sensorsHealthy == HealthySensors(es)
  }

  lemma {:induction false} LinkHolds(es: seq<Event>)
    ensures HoldsLink(Run(INITIAL, es).link, es)
  {
    if es != [] {
      LinkHolds(es[..|es| - 1]);
    }
  }

  lemma {:induction false} PositionHolds(es: seq<Event>)
    ensures HoldsPosition(Run(INITIAL, es).readings, es)
  {
    if es != [] {
      PositionHolds(es[..|es| - 1]);
    }
  }

  lemma {:induction false} PowerHolds(es: seq<Event>)
    ensures HoldsPower(Run(INITIAL, es).readings, es)
  {
    if es != [] {
      PowerHolds(es[..|es| - 1]);
    }
  }

  lemma {:induction false} ChargeHolds(es: seq<Event>)
    ensures HoldsCharge(Run(INITIAL, es).readings, es)
  {
    if es != [] {
      ChargeHolds(es[..|es| - 1]);
    }
  }

  lemma {:induction false} StatusHolds(es: seq<Event>)
    ensures HoldsStatus(Run(INITIAL, es).readings, es)
  {
    if es != [] {
      StatusHolds(es[..|es| - 1]);
    }
  }

  // --- Texts ---

  /** The letters a lowered character can have come from. */
  predicate Cases(lower: string, upper: string) {
    && |lower| == |upper|
    && forall k, c: char :: 0 <= k < |lower| ==> (LowerChar(c) == lower[k] <==> c == lower[k] || c == upper[k])
  }

  lemma Words()
    ensures Cases("battery", "BATTERY") && Cases("prearm:", "PREARM:")
  {
  }

  lemma ContainsIsSays(text: string, lower: string, upper: string)
    requires Cases(lower, upper)
    ensures Contains(text, lower) <==> Says(text, lower, upper)
  {
    forall i: nat ensures OccursAt(Lower(text), lower, i) <==> SpelledAt(text, i, lower, upper) {
      if i + |lower| <= |text| {
        var part := Lower(text)[i..i + |lower|];
        forall k | 0 <= k < |lower|
          ensures part[k] == lower[k] <==> text[i + k] == lower[k] || text[i + k] == upper[k]
        {
          assert part[k] == LowerChar(text[i + k]);
        }
        if SpelledAt(text, i, lower, upper) {
          assert part == lower;
        }
      }
    }
  }

  lemma NotedIsWarns(e: Event)
    requires e.StatusText?
    ensures Noted(e.severity, e.text) <==> Warns(e)
    ensures MentionsBattery(e.text) <==> Says(e.text, "battery", "BATTERY")
  {
    Words();
    ContainsIsSays(e.text, "prearm:", "PREARM:");
    ContainsIsSays(e.text, "battery", "BATTERY");
  }

  /** A text was noted within the window exactly if it was last noted within it. */
  lemma {:induction false} SeenIsLatest(es: seq<Event>, text: string)
    requires Monotone(es)
    ensures var seen := LastSeen(es, text);
            && (seen.Some? ==>
                  exists k: nat :: k < |es| && Warns(es[k]) && es[k].text == text && es[k].at == seen.value)
            && (forall k: nat :: k < |es| && Warns(es[k]) && es[k].text == text ==>
                  seen.Some? && es[k].at <= seen.value)
  {
    if es != [] {
      var n := |es| - 1;
      SeenIsLatest(es[..n], text);
      if es[n].StatusText? { NotedIsWarns(es[n]); }
      assert forall k: nat :: k < n ==> es[..n][k] == es[k] && es[k].at <= es[n].at;
    }
  }

  lemma {:induction false} LatestDecides(es: seq<Event>, text: string, now: Time, window: Time)
    requires Monotone(es)
    ensures Reported(es, text, now, window) <==>
            LastSeen(es, text).Some? && now - LastSeen(es, text).value <= window
  {
    SeenIsLatest(es, text);
    var seen := LastSeen(es, text);
    if seen.Some? && now - seen.value <= window {
      var k: nat :| k < |es| && Warns(es[k]) && es[k].text == text && es[k].at == seen.value;
      assert WarnedAt(es, k, now, window);
    }
  }

  /** A warning is held exactly if its text was reported in the last 30 s, and dated by the latest report. */
  lemma {:induction false} HeldIsReported(es: seq<Event>, ws: seq<Warning>, text: string, now: Time, window: Time)
    requires Monotone(es) && (es != [] ==> es[|es| - 1].at <= now) && window <= 30_000_000_000
    requires ws == Prune(Run(INITIAL, es).warnings, now)
    ensures (exists k :: 0 <= k < |ws| && ws[k].text == text && now - ws[k].lastSeen <= window) <==>
            Reported(es, text, now, window)
  {
    WarningsAgree(es, now);
    LatestDecides(es, text, now, window);
    forall k | 0 <= k < |ws| && ws[k].text == text ensures LastSeen(es, text) == Some(ws[k].lastSeen) {
      assert Holds(ws, text, ws[k].lastSeen);
    }
    if LastSeen(es, text).Some? && now - LastSeen(es, text).value <= window {
      assert Holds(ws, text, LastSeen(es, text).value);
    }
  }

  lemma {:induction false} RecentIsWarned(es: seq<Event>, ws: seq<Warning>, now: Time)
    requires Monotone(es) && (es != [] ==> es[|es| - 1].at <= now) && ws == Prune(Run(INITIAL, es).warnings, now)
    ensures AnyRecent(ws, now) <==> Warned(es, now, 5_000_000_000)
  {
    if AnyRecent(ws, now) {
      var k :| 0 <= k < |ws| && now - ws[k].lastSeen <= BLOCKING_TIMEOUT;
      HeldIsReported(es, ws, ws[k].text, now, 5_000_000_000);
    }
    if Warned(es, now, 5_000_000_000) {
      var k: nat :| WarnedAt(es, k, now, 5_000_000_000);
      HeldIsReported(es, ws, es[k].text, now, 5_000_000_000);
    }
  }

  lemma {:induction false} BatteryIsWarned(es: seq<Event>, ws: seq<Warning>, now: Time)
    requires Monotone(es) && (es != [] ==> es[|es| - 1].at <= now) && ws == Prune(Run(INITIAL, es).warnings, now)
    ensures AnyBattery(ws) <==> BatteryWarned(es, now, 30_000_000_000)
  {
    var window := 30_000_000_000;
    WarningsAgree(es, now);
    if AnyBattery(ws) {
      var k :| 0 <= k < |ws| && MentionsBattery(ws[k].text);
      assert Holds(ws, ws[k].text, ws[k].lastSeen);
      LatestDecides(es, ws[k].text, now, window);
      var j: nat :| WarnedAt(es, j, now, window) && es[j].text == ws[k].text;
      NotedIsWarns(es[j]);
    }
    if BatteryWarned(es, now, window) {
      var k: nat :| WarnedAt(es, k, now, window) && Says(es[k].text, "battery", "BATTERY");
      NotedIsWarns(es[k]);
      HeldIsReported(es, ws, es[k].text, now, window);
    }
  }

  lemma {:induction false} TextsAreReported(es: seq<Event>, ws: seq<Warning>, now: Time)
    requires Monotone(es) && (es != [] ==> es[|es| - 1].at <= now) && ws == Prune(Run(INITIAL, es).warnings, now)
    ensures forall text :: text in Texts(ws) <==> Reported(es, text, now, 30_000_000_000)
    ensures forall i, j :: 0 <= i < j < |ws| ==> Texts(ws)[i] != Texts(ws)[j]
  {
    WarningsAgree(es, now);
    forall text ensures text in Texts(ws) <==> Reported(es, text, now, 30_000_000_000) {
      HeldIsReported(es, ws, text, now, 30_000_000_000);
      if text in Texts(ws) {
        var k :| 0 <= k < |ws| && Texts(ws)[k] == text;
        assert Holds(ws, text, ws[k].lastSeen);
      }
      if Reported(es, text, now, 30_000_000_000) {
        var k :| 0 <= k < |ws| && ws[k].text == text;
        assert Texts(ws)[k] == text;
      }
    }
  }

  // --- The snapshot shows what the reports say ---

  lemma {:induction false} ViewShowsBeat(l: Link, c: Readings, es: seq<Event>, now: Time, battery: bool,
                                         recent: bool, texts: seq<string>)
    requires HoldsLink(l, es)
    ensures var v := View(l, c, now, battery, recent, texts);
            && v.connected == Connected(es, now) && TellsBeat(v, Last(es, IsBeat))
            && v.metadataKnown == l.metadata && v.warnings == texts
  {
  }

  lemma HealthMatches(c: Readings, es: seq<Event>, now: Time)
    requires HoldsStatus(c, es)
    ensures HealthOk(c, now) <==> SensorsHealthy(es, now)
  {
  }

  lemma ViewShowsReadings(l: Link, c: Readings, es: seq<Event>, now: Time, battery: bool, recent: bool,
                          texts: seq<string>)
    requires HoldsPosition(c, es) && HoldsStatus(c, es)
    ensures var v := View(l, c, now, battery, recent, texts);
            && (v.gpsReady <==> v.connected && GpsUsable(es, now))
            && (v.healthOk <==> v.connected && SensorsHealthy(es, now))
            && (v.armable <==> v.gpsReady && v.batteryReady && v.healthOk && !recent)
            && v.relativeAltitude == (if v.connected then Altitude(es, now) else None)
  {
    assert GpsReady(c, now) <==> GpsUsable(es, now);
    HealthMatches(c, es, now);
  }

  lemma BatteryBit(enabled: bv32, healthy: bv32)
    ensures enabled & BATTERY_SENSOR != 0 && healthy & BATTERY_SENSOR != 0 <==>
            enabled & healthy & 0x0200_0000 == 0x0200_0000
  {
  }

  lemma ThresholdMet(c: Readings, voltage: real, threshold: Double)
    requires c.voltage == Some(voltage) && c.armingVoltage == Some(AtLeastZero(threshold))
    ensures VoltageSuffices(c) <==> VoltageMeets(voltage, threshold)
  {
  }

  lemma {:induction false} ViewShowsBattery(l: Link, c: Readings, es: seq<Event>, now: Time, battery: bool,
                                            recent: bool, texts: seq<string>)
    requires HoldsLink(l, es) && HoldsPower(c, es) && HoldsCharge(c, es) && HoldsStatus(c, es)
    requires battery <==> BatteryWarned(es, now, 30_000_000_000)
    ensures var v := View(l, c, now, battery, recent, texts);
            && (v.batteryReady <==> Connected(es, now) && BatteryUsable(es, now))
            && (v.armingVoltageKnown <==>
                  Connected(es, now) && Recent(Last(es, IsPower), now, 10_000_000_000) && Last(es, IsThreshold).Some?)
  {
    var (voltage, threshold) := (Last(es, IsVoltage), Last(es, IsThreshold));
    BatteryBit(EnabledSensors(es), HealthySensors(es));
    if voltage.Some? && threshold.Some? {
      ThresholdMet(c, voltage.value.voltage.value, threshold.value.value);
    }
  }

  /** Every field of a snapshot that a decision reads, from the reports alone. */
  lemma {:induction false} SnapshotShows(es: seq<Event>, now: Time)
    requires Monotone(es) && (es != [] ==> es[|es| - 1].at <= now)
    ensures Shows(SnapshotOf(Run(INITIAL, es), now), es, now)
  {
    var s := Run(INITIAL, es);
    var ws := Prune(s.warnings, now);
    LinkHolds(es);
    PositionHolds(es);
    PowerHolds(es);
    ChargeHolds(es);
    StatusHolds(es);
    RecentIsWarned(es, ws, now);
    BatteryIsWarned(es, ws, now);
    TextsAreReported(es, ws, now);
    MetadataExactlyWhenAnswered(es);
    ViewShowsBeat(s.link, s.readings, es, now, AnyBattery(ws), AnyRecent(ws, now), Texts(ws));
    ViewShowsReadings(s.link, s.readings, es, now, AnyBattery(ws), AnyRecent(ws, now), Texts(ws));
    ViewShowsBattery(s.link, s.readings, es, now, AnyBattery(ws), AnyRecent(ws, now), Texts(ws));
  }
}
