/** What a poll writes in every run, frame by frame, and what is asked for until it
    is answered: parameters in turn, the version, the battery's arming voltage. */
module ApplicationQueries {
  import opened FlightTypes
  import opened Application
  import opened ApplicationTiming
  import D = ApplicationDecisions
  import F = LinkFailsafe
  import R = ApplicationRuns
  import T = TelemetryStreams
  import V = VehicleStates
  import VR = VehicleReports

  // --- What has been asked for ---

  /** A parameter read, and whether the failsafe was accepted then. */
  datatype Read = Read(at: Time, accepted: bool)

  /** Whether the vehicle was connected last, the parameter reads since it came up,
      and all version and battery queries. */
  datatype Asked = Asked(up: bool, params: seq<Read>, versions: seq<Time>, batteries: seq<Time>)

  const NOTHING_ASKED := Asked(false, [], [], [])

  /** A connection that comes up starts the parameters afresh. */
  function Kept(a: Asked, connected: bool): seq<Read> { if connected && !a.up then [] else a.params }

  /** From the last of n params to the next: 200 ms within a round of four, then 10 s
      if the failsafe was accepted and 2 s if not. */
  function Pause(n: nat, accepted: bool): Time {
    if n % 4 != 0 then 200_000_000 else if accepted then 10_000_000_000 else 2_000_000_000
  }

  predicate ReadDue(params: seq<Read>, now: Time) {
    params == [] || now >= params[|params| - 1].at + Pause(|params|, params[|params| - 1].accepted)
  }

  /** The first query is due once the clock is past its epoch, another 2 s after each. */
  predicate QueryDue(queries: seq<Time>, now: Time) {
    now >= if queries == [] then 0 else queries[|queries| - 1] + 2_000_000_000
  }

  function Ask(a: Asked, v: Vehicle, ready: bool, accepted: bool, now: Time): Asked {
    var (can, kept) := (ready && v.systemId.Some?, Kept(a, v.connected));
    Asked(v.connected,
          if can && ReadDue(kept, now) then kept + [Read(now, accepted)] else kept,
          if can && !v.metadataKnown && QueryDue(a.versions, now) then a.versions + [now] else a.versions,
          if can && !v.armingVoltageKnown && QueryDue(a.batteries, now) then a.batteries + [now] else a.batteries)
  }

  ghost function AskIn(o: Options, a: Asked, l: Logs, p: PollInput): Asked {
    var seen := Monitored(Received(o, l, p), p.now);
    Ask(a, R.SeenIn(o, l, p), TelemetryReady(seen), LinkAccepted(seen), p.now)
  }

  ghost function AskedIn(o: Options, h: seq<Event>): Asked {
    if h == [] then NOTHING_ASKED
    else
      var (front, e) := (h[..|h| - 1], h[|h| - 1]);
      if e.Poll? then AskIn(o, AskedIn(o, front), LogsOf(o, front), e.input) else AskedIn(o, front)
  }

  // --- The timers stand for it ---

  ghost predicate Agrees(s: Schedule, a: Asked, polled: Option<Time>) {
    && s.wasConnected == a.up && s.parameter == |a.params| % 4
    && (a.params != [] ==>
          var last := a.params[|a.params| - 1]; s.nextParameter == last.at + Pause(|a.params|, last.accepted))
    && (a.params == [] && a.up ==> polled.Some? && s.nextParameter <= polled.value)
    && s.nextVersion == (if a.versions == [] then 0 else a.versions[|a.versions| - 1] + 2_000_000_000)
    && s.nextBattery == (if a.batteries == [] then 0 else a.batteries[|a.batteries| - 1] + 2_000_000_000)
  }

  /** A poll in which nothing can be asked unless the vehicle is connected. */
  lemma ParametersAgree(s: Schedule, a: Asked, polled: Option<Time>, v: Vehicle, ready: bool, accepted: bool, now: Time,
                        sent: bool)
    requires Agrees(s, a, polled) && (polled.Some? ==> polled.value <= now) && (ready ==> v.connected)
    ensures var s2 := OnBeat(OnConnection(s, v, now), v, now, sent);
            var (s3, a') := (OnRequest(s2, v, ready, accepted, now), Ask(a, v, ready, accepted, now));
            && s3.wasConnected == a'.up && s3.parameter == |a'.params| % 4
            && (a'.params != [] ==>
                  var last := a'.params[|a'.params| - 1];
                  s3.nextParameter == last.at + Pause(|a'.params|, last.accepted))
            && (a'.params == [] && a'.up ==> s3.nextParameter <= now)
            && (ParameterDue(s2, v, ready, now) <==>
                  ready && v.systemId.Some? && ReadDue(Kept(a, v.connected), now))
            && (ready ==> s2.parameter == |Kept(a, v.connected)| % 4)
            && s3.nextVersion == s.nextVersion && s3.nextBattery == s.nextBattery
  {
  }

  lemma QueriesAgree(s: Schedule, a: Asked, polled: Option<Time>, v: Vehicle, ready: bool, accepted: bool, now: Time,
                     sent: bool)
    requires Agrees(s, a, polled) && (polled.Some? ==> polled.value <= now) && (ready ==> v.connected)
    ensures var s3 := OnRequest(OnBeat(OnConnection(s, v, now), v, now, sent), v, ready, accepted, now);
            && Agrees(OnQueries(s3, v, ready, now), Ask(a, v, ready, accepted, now), Some(now))
            && (VersionDue(s3, v, ready, now) <==>
                  ready && v.systemId.Some? && !v.metadataKnown && QueryDue(a.versions, now))
            && (BatteryDue(s3, v, ready, now) <==>
                  ready && v.systemId.Some? && !v.armingVoltageKnown && QueryDue(a.batteries, now))
  {
    ParametersAgree(s, a, polled, v, ready, accepted, now, sent);
  }

  /** What the telemetry setup and the failsafe have come to in the poll. */
  lemma WatchedInPoll(o: Options, l: Logs, p: PollInput)
    ensures var heard := Received(o, l, p);
            var w := Watch(Look(WorldOf(o, heard), p.now), VehicleAt(heard, p.now), p.now);
            var seen := Monitored(heard, p.now);
            && (w.streams.phase == T.Running <==> TelemetryReady(seen))
            && (F.Accepts(w.failsafe) <==> LinkAccepted(seen))
            && (TelemetryReady(seen) ==> VehicleAt(heard, p.now).connected)
  {
    WatchTracks(o, Received(o, l, p), p.now);
  }

  lemma PollAgrees(o: Options, s: Schedule, a: Asked, polled: Option<Time>, l: Logs, p: PollInput)
    requires Agrees(s, a, polled) && (polled.Some? ==> polled.value <= p.now)
    ensures Agrees(AttendedPoll(o, s, l, p), AskIn(o, a, l, p), Some(p.now))
  {
    var (heard, seen) := (Received(o, l, p), Monitored(Received(o, l, p), p.now));
    WatchedInPoll(o, l, p);
    QueriesAgree(s, a, polled, VehicleAt(heard, p.now), TelemetryReady(seen), LinkAccepted(seen), p.now,
                 p.writes.heartbeat);
  }

  lemma {:induction false} LastPollIsPast(h: seq<Event>, now: Time)
    requires Clock(h) && (h != [] ==> TimeOf(h[|h| - 1]) <= now)
    ensures LastPoll(h).Some? ==> LastPoll(h).value <= now
  {
    if h != [] && !h[|h| - 1].Poll? {
      LastPollIsPast(h[..|h| - 1], now);
    }
  }

  lemma {:induction false} TimersAgree(o: Options, h: seq<Event>)
    requires Clock(h)
    ensures Agrees(ScheduleOf(o, h), AskedIn(o, h), LastPoll(h))
  {
    if h != [] {
      var (front, e) := (h[..|h| - 1], h[|h| - 1]);
      TimersAgree(o, front);
      if e.Poll? {
        LastPollIsPast(front, TimeOf(e));
        PollAgrees(o, ScheduleOf(o, front), AskedIn(o, front), LastPoll(front), LogsOf(o, front), e.input);
      }
    }
  }

  // --- What a poll of a run writes ---

  ghost function MailIn(o: Options, s: Schedule, l: Logs, p: PollInput): seq<Mail> {
    var heard := Received(o, l, p);
    PollMail(s, Look(WorldOf(o, heard), p.now), VehicleAt(heard, p.now), p.now, p.writes, SentBy(o, l, p))
  }

  /** What the last poll of the run writes: the frames in order, with their results. */
  ghost function MailAt(o: Options, h: seq<Event>): seq<Mail>
    requires h != [] && h[|h| - 1].Poll?
  {
    MailIn(o, ScheduleOf(o, h[..|h| - 1]), LogsOf(o, h[..|h| - 1]), h[|h| - 1].input)
  }

  function If(condition: bool, frame: Outbound, sent: bool): seq<Mail> { if condition then [Mail(frame, sent)] else [] }

  function IntervalFrames(r: Option<T.StreamRequest>, sent: bool): seq<Mail> {
    if r.Some? then [Mail(SetInterval(r.value), sent)] else []
  }

  function NameOf(n: nat): string {
    if n % 4 == 0 then "FS_GCS_ENABLE" else if n % 4 == 1 then "FS_GCS_TIMEOUT"
    else if n % 4 == 2 then "FS_OPTIONS" else "SYSID_MYGCS"
  }

  /** Heartbeat, interval request, parameter read, version and battery query, as far as they are due. */
  function Frames(id: Byte, beat: bool, r: Option<T.StreamRequest>, param: bool, name: string, version: bool,
                  battery: bool, w: Writes): seq<Mail> {
    (If(beat, Heartbeat(id), w.heartbeat) + IntervalFrames(r, w.stream)) +
    (If(param, ReadParameter(id, name), w.parameter) +
     (If(version, RequestVersion(id), w.version) + If(battery, ReadBattery(id), w.battery)))
  }

  /** The poll's frames for the link. */
  function LinkFrames(beat: bool, r: Option<T.StreamRequest>, a: Asked, v: Vehicle, ready: bool, now: Time, w: Writes):
    seq<Mail>
    requires v.systemId.Some?
  {
    var kept := Kept(a, v.connected);
    Frames(v.systemId.value, beat && v.connected, r, ready && ReadDue(kept, now), NameOf(|kept|),
           ready && !v.metadataKnown && QueryDue(a.versions, now),
           ready && !v.armingVoltageKnown && QueryDue(a.batteries, now), w)
  }

  /** The poll's frames for the flight: startup command, guidance, LAND. */
  function FlightFrames(sent: Sending, w: Writes): seq<Mail> {
    (if sent.command.Some? then [Mail(Flight(sent.command.value), w.startup)] else []) +
    (if sent.actions.target.Some? then [Mail(Flight(sent.actions.target.value), w.target)] else []) +
    (if sent.actions.land.Some? then [Mail(Flight(sent.actions.land.value), w.land)] else [])
  }

  lemma BeatMailIs(s: Schedule, v: Vehicle, now: Time, sent: bool)
    requires v.systemId.Some?
    ensures BeatMail(OnConnection(s, v, now), v, now, sent) ==
            If(now >= s.nextHeartbeat && v.connected, Heartbeat(v.systemId.value), sent)
  {
  }

  lemma ParameterMailIs(s: Schedule, a: Asked, polled: Option<Time>, v: Vehicle, ready: bool, accepted: bool, now: Time,
                        beatSent: bool, sent: bool)
    requires Agrees(s, a, polled) && (polled.Some? ==> polled.value <= now) && (ready ==> v.connected)
    requires v.systemId.Some?
    ensures var kept := Kept(a, v.connected);
            ParameterMail(OnBeat(OnConnection(s, v, now), v, now, beatSent), v, ready, now, sent) ==
            If(ready && ReadDue(kept, now), ReadParameter(v.systemId.value, NameOf(|kept|)), sent)
  {
    ParametersAgree(s, a, polled, v, ready, accepted, now, beatSent);
    NamesInOrder(|Kept(a, v.connected)|);
  }

  lemma QueryMailIs(s: Schedule, a: Asked, polled: Option<Time>, v: Vehicle, ready: bool, accepted: bool, now: Time,
                    w: Writes)
    requires Agrees(s, a, polled) && (polled.Some? ==> polled.value <= now) && (ready ==> v.connected)
    requires v.systemId.Some?
    ensures var s3 := OnRequest(OnBeat(OnConnection(s, v, now), v, now, w.heartbeat), v, ready, accepted, now);
            QueryMail(s3, v, ready, now, w.version, w.battery) ==
            If(ready && !v.metadataKnown && QueryDue(a.versions, now), RequestVersion(v.systemId.value), w.version) +
            If(ready && !v.armingVoltageKnown && QueryDue(a.batteries, now), ReadBattery(v.systemId.value), w.battery)
  {
    QueriesAgree(s, a, polled, v, ready, accepted, now, w.heartbeat);
  }

  lemma AskingMailIs(s: Schedule, a: Asked, polled: Option<Time>, v: Vehicle, ready: bool, accepted: bool, now: Time,
                     w: Writes)
    requires Agrees(s, a, polled) && (polled.Some? ==> polled.value <= now) && (ready ==> v.connected)
    requires v.systemId.Some?
    ensures var s2 := OnBeat(OnConnection(s, v, now), v, now, w.heartbeat);
            var (id, kept) := (v.systemId.value, Kept(a, v.connected));
            ParameterMail(s2, v, ready, now, w.parameter) +
            QueryMail(OnRequest(s2, v, ready, accepted, now), v, ready, now, w.version, w.battery) ==
            If(ready && ReadDue(kept, now), ReadParameter(id, NameOf(|kept|)), w.parameter) +
            (If(ready && !v.metadataKnown && QueryDue(a.versions, now), RequestVersion(id), w.version) +
             If(ready && !v.armingVoltageKnown && QueryDue(a.batteries, now), ReadBattery(id), w.battery))
  {
    ParameterMailIs(s, a, polled, v, ready, accepted, now, w.heartbeat, w.parameter);
    QueryMailIs(s, a, polled, v, ready, accepted, now, w);
  }

  lemma LinkMailIs(s: Schedule, looked: World, a: Asked, polled: Option<Time>, v: Vehicle, ready: bool,
                   r: Option<T.StreamRequest>, now: Time, w: Writes)
    requires Sound(looked) && Agrees(s, a, polled) && (polled.Some? ==> polled.value <= now) && v.systemId.Some?
    requires (ready <==> Watch(looked, v, now).streams.phase == T.Running) && (ready ==> v.connected)
    requires r == T.Update(looked.streams, v.connected, v.systemId, now).1
    ensures LinkMail(s, looked, v, now, w) == LinkFrames(now >= s.nextHeartbeat, r, a, v, ready, now, w)
  {
    BeatMailIs(s, v, now, w.heartbeat);
    AskingMailIs(s, a, polled, v, ready, F.Accepts(Watch(looked, v, now).failsafe), now, w);
  }

  /** Nobody to write to. */
  lemma NoMailWithoutVehicle(s: Schedule, looked: World, v: Vehicle, now: Time, w: Writes)
    requires Sound(looked) && v.systemId.None?
    ensures LinkMail(s, looked, v, now, w) == []
  {
  }

  lemma FlightMailIs(sent: Sending, w: Writes)
    ensures FlightMail(sent, w.startup, w.target, w.land) == FlightFrames(sent, w)
  {
  }

  lemma NamesInOrder(n: nat)
    ensures n % 4 < |F.PARAMETER_NAMES| == 4 && F.PARAMETER_NAMES[n % 4] == NameOf(n)
  {
  }

  ghost function LinkFramesIn(o: Options, l: Logs, p: PollInput, a: Asked, beat: bool): seq<Mail> {
    var (heard, v) := (Received(o, l, p), R.SeenIn(o, l, p));
    if v.systemId.None? then []
    else
      LinkFrames(beat, T.Update(T.Run(heard.streams), v.connected, v.systemId, p.now).1, a, v,
                 TelemetryReady(Monitored(heard, p.now)), p.now, p.writes)
  }

  lemma LinkMailIn(o: Options, s: Schedule, a: Asked, polled: Option<Time>, l: Logs, p: PollInput)
    requires Agrees(s, a, polled) && (polled.Some? ==> polled.value <= p.now)
    ensures LinkMail(s, Look(WorldOf(o, Received(o, l, p)), p.now), R.SeenIn(o, l, p), p.now, OfLink(p.writes)) ==
            LinkFramesIn(o, l, p, a, p.now >= s.nextHeartbeat)
  {
    var (looked, v) := (Look(WorldOf(o, Received(o, l, p)), p.now), R.SeenIn(o, l, p));
    if v.systemId.None? {
      NoMailWithoutVehicle(s, looked, v, p.now, OfLink(p.writes));
    } else {
      WatchedInPoll(o, l, p);
      var (heard, ready) := (Received(o, l, p), TelemetryReady(Monitored(Received(o, l, p), p.now)));
      var r := T.Update(T.Run(heard.streams), v.connected, v.systemId, p.now).1;
      LinkMailIs(s, looked, a, polled, v, ready, r, p.now, OfLink(p.writes));
      SameLinkWrites(p.now >= s.nextHeartbeat, r, a, v, ready, p.now, p.writes);
    }
  }

  lemma SameLinkWrites(beat: bool, r: Option<T.StreamRequest>, a: Asked, v: Vehicle, ready: bool, now: Time, w: Writes)
    requires v.systemId.Some?
    ensures LinkFrames(beat, r, a, v, ready, now, OfLink(w)) == LinkFrames(beat, r, a, v, ready, now, w)
  {
  }

  /** The frames of the last poll, from what the vehicle has reported, what has been
      asked for so far and what the two machines send. */
  ghost function FramesOf(o: Options, h: seq<Event>): seq<Mail>
    requires h != [] && h[|h| - 1].Poll?
  {
    var (front, p) := (h[..|h| - 1], h[|h| - 1].input);
    LinkFramesIn(o, LogsOf(o, front), p, AskedIn(o, front), p.now >= NextBeat(front)) +
    FlightFrames(R.SentAt(o, h), p.writes)
  }

  /** In every run every poll writes exactly these frames, in this order. */
  lemma MailIsExactly(o: Options, h: seq<Event>)
    requires Clock(h) && h != [] && h[|h| - 1].Poll?
    ensures MailAt(o, h) == FramesOf(o, h)
  {
    var (front, p) := (h[..|h| - 1], h[|h| - 1].input);
    TimersAgree(o, front);
    LastPollIsPast(front, p.now);
    BeatsAreUnconditional(o, front);
    LinkMailIn(o, ScheduleOf(o, front), AskedIn(o, front), LastPoll(front), LogsOf(o, front), p);
    FlightMailIs(R.SentAt(o, h), h[|h| - 1].input.writes);
  }

  // --- Asked until answered ---

  predicate Asks(mail: seq<Mail>, frame: Outbound) { exists k :: 0 <= k < |mail| && mail[k].frame == frame }

  lemma AsksConcat(a: seq<Mail>, b: seq<Mail>, frame: Outbound)
    ensures Asks(a + b, frame) <==> Asks(a, frame) || Asks(b, frame)
  {
    if Asks(a, frame) {
      var k :| 0 <= k < |a| && a[k].frame == frame;
      assert (a + b)[k] == a[k];
    }
    if Asks(b, frame) {
      var k :| 0 <= k < |b| && b[k].frame == frame;
      assert (a + b)[|a| + k] == b[k];
    }
  }

  lemma FivePartsAsk(a: seq<Mail>, b: seq<Mail>, c: seq<Mail>, d: seq<Mail>, e: seq<Mail>, frame: Outbound)
    ensures Asks((a + b) + (c + (d + e)), frame) <==>
            Asks(a, frame) || Asks(b, frame) || Asks(c, frame) || Asks(d, frame) || Asks(e, frame)
  {
    AsksConcat(a, b, frame);
    AsksConcat(d, e, frame);
    AsksConcat(c, d + e, frame);
    AsksConcat(a + b, c + (d + e), frame);
  }

  lemma AsksIf(condition: bool, own: Outbound, sent: bool, frame: Outbound)
    ensures Asks(If(condition, own, sent), frame) <==> condition && own == frame
  {
    if condition { assert If(condition, own, sent)[0].frame == own; }
  }

  lemma IntervalAsksNothing(r: Option<T.StreamRequest>, sent: bool, frame: Outbound)
    requires !frame.SetInterval?
    ensures !Asks(IntervalFrames(r, sent), frame)
  {
  }

  /** Of the five frames of the link only the two queries can be this one. */
  lemma FramesAskFor(id: Byte, beat: bool, r: Option<T.StreamRequest>, param: bool, name: string, version: bool,
                     battery: bool, w: Writes, frame: Outbound)
    requires frame.RequestVersion? || frame.ReadBattery?
    ensures Asks(Frames(id, beat, r, param, name, version, battery, w), frame) <==>
            frame.systemId == id && if frame.RequestVersion? then version else battery
  {
    AsksIf(beat, Heartbeat(id), w.heartbeat, frame);
    IntervalAsksNothing(r, w.stream, frame);
    AsksIf(param, ReadParameter(id, name), w.parameter, frame);
    AsksIf(version, RequestVersion(id), w.version, frame);
    AsksIf(battery, ReadBattery(id), w.battery, frame);
    FivePartsAsk(If(beat, Heartbeat(id), w.heartbeat), IntervalFrames(r, w.stream),
                 If(param, ReadParameter(id, name), w.parameter), If(version, RequestVersion(id), w.version),
                 If(battery, ReadBattery(id), w.battery), frame);
  }

  lemma LinkFramesAsk(beat: bool, r: Option<T.StreamRequest>, a: Asked, v: Vehicle, ready: bool, now: Time, w: Writes,
                      frame: Outbound)
    requires v.systemId.Some? && (frame.RequestVersion? || frame.ReadBattery?)
    ensures Asks(LinkFrames(beat, r, a, v, ready, now, w), frame) <==>
            && ready && frame.systemId == v.systemId.value
            && if frame.RequestVersion? then !v.metadataKnown && QueryDue(a.versions, now)
               else !v.armingVoltageKnown && QueryDue(a.batteries, now)
  {
    var kept := Kept(a, v.connected);
    FramesAskFor(v.systemId.value, beat && v.connected, r, ready && ReadDue(kept, now), NameOf(|kept|),
                 ready && !v.metadataKnown && QueryDue(a.versions, now),
                 ready && !v.armingVoltageKnown && QueryDue(a.batteries, now), w, frame);
  }

  lemma FlightAsksNothing(sent: Sending, w: Writes, frame: Outbound)
    requires frame.RequestVersion? || frame.ReadBattery?
    ensures !Asks(FlightFrames(sent, w), frame)
  {
  }

  /** All six streams have been granted to the vehicle, whose id is known. */
  ghost predicate CanAsk(o: Options, h: seq<Event>)
    requires h != [] && h[|h| - 1].Poll?
  {
    |T.Log(D.SeenAt(o, h).streams).accepted| == 6 && D.VehicleIn(o, h).systemId.Some?
  }

  lemma CanAskIsReady(o: Options, h: seq<Event>)
    requires Clock(h) && h != [] && h[|h| - 1].Poll?
    ensures CanAsk(o, h) <==> TelemetryReady(D.SeenAt(o, h)) && D.VehicleIn(o, h).systemId.Some?
  {
    D.HeardIsTimely(o, h);
    T.SetupLanguage(D.SeenAt(o, h).streams);
  }

  /** The current controller has not told its version since it connected or took over. */
  ghost predicate VersionUnknown(o: Options, h: seq<Event>)
    requires h != [] && h[|h| - 1].Poll?
  {
    !V.Answered(D.HeardAt(o, h).vehicle)
  }

  /** The battery's arming threshold has never been told, or the battery has not been
      heard of for more than 10 s, or the vehicle is not connected. */
  ghost predicate BatteryUnknown(o: Options, h: seq<Event>)
    requires h != [] && h[|h| - 1].Poll?
  {
    var (es, now) := (D.HeardAt(o, h).vehicle, h[|h| - 1].input.now);
    !(VR.Connected(es, now) && VR.Recent(VR.Last(es, VR.IsPower), now, 10_000_000_000) &&
      VR.Last(es, VR.IsThreshold).Some?)
  }

  /** In every run the version query is written exactly while the version is unknown
      and the last query 2 s old, to the vehicle of the poll; and the battery query
      likewise while the battery's threshold is. */
  lemma {:induction false} QueriesExactly(o: Options, h: seq<Event>, id: Byte)
    requires Clock(h) && h != [] && h[|h| - 1].Poll?
    ensures var (a, now, v) := (AskedIn(o, h[..|h| - 1]), h[|h| - 1].input.now, D.VehicleIn(o, h));
            && (Asks(MailAt(o, h), RequestVersion(id)) <==>
                  CanAsk(o, h) && v.systemId == Some(id) && VersionUnknown(o, h) && QueryDue(a.versions, now))
            && (Asks(MailAt(o, h), ReadBattery(id)) <==>
                  CanAsk(o, h) && v.systemId == Some(id) && BatteryUnknown(o, h) && QueryDue(a.batteries, now))
  {
    var (front, p) := (h[..|h| - 1], h[|h| - 1].input);
    UnknownIsSeen(o, h);
    CanAskIsReady(o, h);
    MailIsExactly(o, h);
    FramesAsk(o, LogsOf(o, front), p, AskedIn(o, front), p.now >= NextBeat(front), R.SentAt(o, h), RequestVersion(id));
    FramesAsk(o, LogsOf(o, front), p, AskedIn(o, front), p.now >= NextBeat(front), R.SentAt(o, h), ReadBattery(id));
  }

  lemma FramesAsk(o: Options, l: Logs, p: PollInput, a: Asked, beat: bool, sent: Sending, frame: Outbound)
    requires frame.RequestVersion? || frame.ReadBattery?
    ensures var (mail, v) := (LinkFramesIn(o, l, p, a, beat) + FlightFrames(sent, p.writes), R.SeenIn(o, l, p));
            Asks(mail, frame) <==>
            && TelemetryReady(Monitored(Received(o, l, p), p.now)) && v.systemId == Some(frame.systemId)
            && if frame.RequestVersion? then !v.metadataKnown && QueryDue(a.versions, p.now)
               else !v.armingVoltageKnown && QueryDue(a.batteries, p.now)
  {
    var (link, flight, v) := (LinkFramesIn(o, l, p, a, beat), FlightFrames(sent, p.writes), R.SeenIn(o, l, p));
    FlightAsksNothing(sent, p.writes, frame);
    AsksConcat(link, flight, frame);
    if v.systemId.Some? {
      var heard := Received(o, l, p);
      LinkFramesAsk(beat, T.Update(T.Run(heard.streams), v.connected, v.systemId, p.now).1, a, v,
                    TelemetryReady(Monitored(heard, p.now)), p.now, p.writes, frame);
    }
  }

  /** The last query is less than 2 s old. */
  predicate Current(queries: seq<Time>, now: Time) {
    queries != [] && now < queries[|queries| - 1] + 2_000_000_000
  }

  lemma UnknownIsSeen(o: Options, h: seq<Event>)
    requires Clock(h) && h != [] && h[|h| - 1].Poll?
    ensures VersionUnknown(o, h) <==> !D.VehicleIn(o, h).metadataKnown
    ensures BatteryUnknown(o, h) <==> !D.VehicleIn(o, h).armingVoltageKnown
  {
    D.VehicleIsShown(o, h);
  }

  lemma JustAsked(a: Asked, v: Vehicle, ready: bool, accepted: bool, now: Time)
    requires ready && v.systemId.Some? && now >= 0
    ensures var a' := Ask(a, v, ready, accepted, now);
            && (!v.metadataKnown ==> Current(a'.versions, now))
            && (!v.armingVoltageKnown ==> Current(a'.batteries, now))
  {
  }

  lemma PollAsked(o: Options, a: Asked, l: Logs, p: PollInput, v: Vehicle)
    requires TelemetryReady(Monitored(Received(o, l, p), p.now)) && v == R.SeenIn(o, l, p)
    requires v.systemId.Some? && p.now >= 0
    ensures !v.metadataKnown ==> Current(AskIn(o, a, l, p).versions, p.now)
    ensures !v.armingVoltageKnown ==> Current(AskIn(o, a, l, p).batteries, p.now)
  {
    JustAsked(a, v, true, LinkAccepted(Monitored(Received(o, l, p), p.now)), p.now);
  }

  /** So as long as an answer is missing, from the start or after a reconnection or a
      change of controller, each poll leaves the last query less than 2 s old. */
  lemma {:induction false} AskedUntilAnswered(o: Options, h: seq<Event>)
    requires Clock(h) && h != [] && h[|h| - 1].Poll? && h[|h| - 1].input.now >= 0 && CanAsk(o, h)
    ensures VersionUnknown(o, h) ==> Current(AskedIn(o, h).versions, h[|h| - 1].input.now)
    ensures BatteryUnknown(o, h) ==> Current(AskedIn(o, h).batteries, h[|h| - 1].input.now)
  {
    UnknownIsSeen(o, h);
    CanAskIsReady(o, h);
    PollAsked(o, AskedIn(o, h[..|h| - 1]), LogsOf(o, h[..|h| - 1]), h[|h| - 1].input, D.VehicleIn(o, h));
  }

  ghost predicate Rotating(params: seq<Read>) {
    forall j, k :: 0 <= j < k < |params| && k == j + 1 ==> params[k].at >= params[j].at + Pause(k, params[j].accepted)
  }

  lemma AskRotates(a: Asked, v: Vehicle, ready: bool, accepted: bool, now: Time)
    requires Rotating(a.params)
    ensures Rotating(Ask(a, v, ready, accepted, now).params)
  {
  }

  /** In every run the parameters are read in turn (see FramesOf), from the first
      whenever the connection comes up, with at least these pauses in between. */
  lemma {:induction false} ParametersRotate(o: Options, h: seq<Event>)
    ensures Rotating(AskedIn(o, h).params)
  {
    if h != [] {
      var (front, e) := (h[..|h| - 1], h[|h| - 1]);
      ParametersRotate(o, front);
      if e.Poll? {
        var (l, p) := (LogsOf(o, front), e.input);
        var seen := Monitored(Received(o, l, p), p.now);
        AskRotates(AskedIn(o, front), R.SeenIn(o, l, p), TelemetryReady(seen), LinkAccepted(seen), p.now);
      }
    }
  }
}
