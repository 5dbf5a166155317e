/** The companion application: what one poll feeds to each component, and in which order. */
module Application {
  import opened FlightTypes
  import A = Autonomy
  import F = LinkFailsafe
  import K = Tracking
  import S = FlightStartup
  import T = TelemetryStreams
  import V = VehicleStates
  import W = Transports
  import X = Transform

  const HEARTBEAT_INTERVAL: Time := 1 * SECOND
  const PARAMETER_SPACING: Time := 200 * MILLISECOND
  const REJECTED_RETRY: Time := 2 * SECOND
  const ACCEPTED_REFRESH: Time := 10 * SECOND
  const MAXIMUM_TARGET_AGE: Time := 250 * MILLISECOND
  const METADATA_RETRY: Time := 2 * SECOND
  const BATTERY_RETRY: Time := 2 * SECOND
  const PARAMETERS: nat := 4

  datatype Options = Options(
    motionAllowed: bool,
    startup: S.Config,
    runtime: A.Config,
    vision: bool,
    extrinsics: Option<X.Extrinsics>)

  /** What the constructor accepts. */
  predicate Constructible(o: Options) {
    && o.startup.enabled == o.runtime.enabled
    && (o.startup.enabled ==> o.motionAllowed && o.extrinsics.Some?)
    && (o.extrinsics.Some? ==> o.vision)
  }

  /** The same, with extrinsics as their loader hands them out: validated. */
  predicate WellFormed(o: Options) {
    Constructible(o) && (o.extrinsics.Some? ==> X.Accepts(o.extrinsics.value))
  }

  // --- What arrives ---

  datatype Message =
    | Telemetry(event: V.Event)
    | Parameter(system: Byte, comp: Byte, id: string, value: Double)
    | CommandAck(command: int, result: Byte, source: Byte, targetSystem: Byte, targetComponent: Byte)

  const SET_MESSAGE_INTERVAL := 511
  const RESULT_ACCEPTED: Byte := 0
  const RESULT_IN_PROGRESS: Byte := 5

  function MapFlightAction(command: int): Option<FlightAction> {
    match command
    case 176 => Some(SetGuidedMode)
    case 400 => Some(Arm)
    case 22 => Some(Takeoff)
    case 21 => Some(Land)
    case 20 => Some(ReturnToLaunch)
    case _ => None
  }

  function OutcomeOf(result: Byte): AckOutcome {
    if result == RESULT_ACCEPTED then Accepted else if result == RESULT_IN_PROGRESS then InProgress else Rejected
  }

  function VerdictOf(result: Byte): T.Verdict {
    if result == RESULT_ACCEPTED then T.Done
    else if result == RESULT_IN_PROGRESS then T.StillBusy
    else T.Refused(result)
  }

  /** Whether each write of the poll got its whole frame out. */
  datatype Writes = Writes(
    heartbeat: bool,
    stream: bool,
    parameter: bool,
    version: bool,
    battery: bool,
    startup: bool,
    target: bool,
    land: bool)

  datatype PollInput = PollInput(
    frame: Option<seq<K.Observation>>,
    cameraNow: Time,
    messages: seq<Message>,
    now: Time,
    writes: Writes)

  const NO_WRITES := Writes(false, false, false, false, false, false, false, false)

  /** A poll, a request to start the scenario again, or somebody taking a snapshot. */
  datatype Event = Poll(input: PollInput) | Start(at: Time) | Snapshot(at: Time)

  // --- What each component is told ---

  datatype Logs = Logs(
    vehicle: seq<V.Event>,
    failsafe: seq<F.Event>,
    streams: seq<T.Event>,
    startup: seq<S.Event>,
    runtime: seq<A.Event>,
    frames: seq<K.Frame>)

  const SILENCE := Logs([], [], [], [], [], [])

  function Stamp(e: V.Event, now: Time): V.Event { e.(at := now) }

  predicate ForCompanion(targetComponent: Byte) { targetComponent == 0 || targetComponent == T.COMPANION_COMPONENT }

  function OnMessage(l: Logs, m: Message, now: Time): Logs {
    match m
    case Telemetry(e) => if e.Look? then l else l.(vehicle := l.vehicle + [Stamp(e, now)])
    case Parameter(system, comp, id, value) => l.(failsafe := l.failsafe + [F.Param(system, comp, id, value)])
    case CommandAck(command, result, source, targetSystem, targetComponent) =>
      var l1 :=
        if command == SET_MESSAGE_INTERVAL then
          l.(streams := l.streams + [T.Ack(T.StreamAck(source, targetSystem, targetComponent, VerdictOf(result)), now)])
        else l;
      var action := MapFlightAction(command);
      if action.None? || !ForCompanion(targetComponent) then l1
      else
        l1.(startup := l1.startup + [S.Ack(action.value, OutcomeOf(result), result, source, now)],
            runtime := l1.runtime + [A.Ack(action.value, OutcomeOf(result), result, source, now)])
  }

  function OnMessages(l: Logs, ms: seq<Message>, now: Time): Logs {
    if ms == [] then l else OnMessage(OnMessages(l, ms[..|ms| - 1], now), ms[|ms| - 1], now)
  }

  function OnFrame(o: Options, l: Logs, p: PollInput): Logs {
    if o.vision && p.frame.Some? then l.(frames := l.frames + [K.Frame(p.frame.value, p.cameraNow)]) else l
  }

  function Received(o: Options, l: Logs, p: PollInput): Logs {
    OnMessages(OnFrame(o, l, p), p.messages, p.now)
  }

  function VehicleAt(l: Logs, now: Time): Vehicle { V.SnapshotOf(V.Run(V.INITIAL, l.vehicle), now) }

  function Looked(l: Logs, now: Time): Logs { l.(vehicle := l.vehicle + [V.Look(now)]) }

  /** The snapshot is taken, then the failsafe cache and the telemetry setup see it. */
  function Monitored(l: Logs, now: Time): Logs {
    var v := VehicleAt(l, now);
    Looked(l, now).(failsafe := l.failsafe + [F.Observe(v.connected, v.systemId)],
                    streams := l.streams + [T.Poll(v.connected, v.systemId, now)])
  }

  ghost predicate LinkAccepted(l: Logs) { F.Accepts(F.Run(F.INITIAL, l.failsafe)) }

  predicate TelemetryReady(l: Logs) { T.Run(l.streams).phase == T.Running }

  function InCamera(p: K.Point): CameraPosition { CameraPosition(Num(p.right), Num(p.down), Num(p.forward)) }

  /** The guidance target: a locked, recent track in body coordinates. It is a
      fault, for which the program throws, if the extrinsics are not rigid. */
  function GuidanceTarget(o: Options, track: K.Track, now: Time): X.Result<Option<BodyPosition>> {
    if !o.vision || o.extrinsics.None? then X.Ok(None)
    else
      var snap := K.SnapshotOf(K.DEFAULT, track, now);
      if snap.phase != K.Locked || snap.position.None? || snap.age.None? || snap.age.value > MAXIMUM_TARGET_AGE
      then X.Ok(None)
      else
        match X.ToBody(o.extrinsics.value, InCamera(snap.position.value))
        case Ok(body) => X.Ok(Some(body))
        case Error(fault) => X.Error(fault)
  }

  function TargetOf(o: Options, track: K.Track, now: Time): Option<BodyPosition> {
    var t := GuidanceTarget(o, track, now);
    if t.Ok? then t.value else None
  }

  lemma RigidNeverFaults(o: Options, track: K.Track, now: Time)
    requires WellFormed(o)
    ensures GuidanceTarget(o, track, now).Ok?
  {
  }

  ghost function StartupInput(l: Logs, v: Vehicle, now: Time): S.Input {
    S.Input(v, TelemetryReady(l), LinkAccepted(l), now)
  }

  ghost function RuntimeInput(o: Options, l: Logs, v: Vehicle, now: Time): A.Input {
    A.Input(v, S.Run(o.startup, l.startup).phase, LinkAccepted(l), now, TargetOf(o, K.Run(K.DEFAULT, l.frames), now))
  }

  ghost function StartupPolled(l: Logs, v: Vehicle, p: PollInput): Logs {
    l.(startup := l.startup + [S.Poll(StartupInput(l, v, p.now), p.writes.startup)])
  }

  ghost function RuntimePolled(o: Options, l: Logs, v: Vehicle, p: PollInput): Logs {
    l.(runtime := l.runtime + [A.Poll(RuntimeInput(o, l, v, p.now), p.writes.target, p.writes.land)])
  }

  ghost function Flown(o: Options, l: Logs, v: Vehicle, p: PollInput): Logs {
    RuntimePolled(o, StartupPolled(l, v, p), v, p)
  }

  ghost function PollLogs(o: Options, l: Logs, p: PollInput): Logs {
    var heard := Received(o, l, p);
    Flown(o, Monitored(heard, p.now), VehicleAt(heard, p.now), p)
  }

  predicate StartupFinished(phase: S.Phase) { phase == S.Completed || phase == S.Failed }

  predicate RuntimeFinished(phase: A.Phase) { phase == A.Completed || phase == A.Failed }

  predicate MayStart(o: Options, l: Logs, now: Time) {
    && o.motionAllowed && o.startup.enabled && o.runtime.enabled
    && var v := VehicleAt(l, now);
       v.connected && v.systemId.Some? && !v.armed &&
       StartupFinished(S.Run(o.startup, l.startup).phase) && RuntimeFinished(A.Run(o.runtime, l.runtime).phase)
  }

  function StartLogs(o: Options, l: Logs, now: Time): Logs {
    if !(o.motionAllowed && o.startup.enabled && o.runtime.enabled) then l
    else if !MayStart(o, l, now) then Looked(l, now)
    else Looked(l, now).(startup := l.startup + [S.Restart(now)], runtime := l.runtime + [A.Restart(now)])
  }

  ghost function StepLogs(o: Options, l: Logs, e: Event): Logs {
    match e
    case Poll(p) => PollLogs(o, l, p)
    case Start(at) => StartLogs(o, l, at)
    case Snapshot(at) => Looked(l, at)
  }

  ghost function LogsOf(o: Options, h: seq<Event>): Logs {
    if h == [] then SILENCE else StepLogs(o, LogsOf(o, h[..|h| - 1]), h[|h| - 1])
  }

  /** What one poll hands to the transport for the flight. */
  datatype Sending = Sending(command: Option<FlightRequest>, actions: A.Actions)

  ghost function SentBy(o: Options, l: Logs, p: PollInput): Sending {
    var heard := Received(o, l, p);
    var v := VehicleAt(heard, p.now);
    var seen := Monitored(heard, p.now);
    var polled := StartupPolled(seen, v, p);
    Sending(S.Update(o.startup, S.Run(o.startup, seen.startup), StartupInput(seen, v, p.now)).1,
            A.Update(o.runtime, A.Run(o.runtime, polled.runtime), RuntimeInput(o, polled, v, p.now)).1)
  }

  lemma StartupSnoc(cfg: S.Config, es: seq<S.Event>, e: S.Event)
    ensures S.Run(cfg, es + [e]) == S.Step(cfg, S.Run(cfg, es), e)
  {
    assert (es + [e])[..|es|] == es;
  }

  lemma RuntimeSnoc(cfg: A.Config, es: seq<A.Event>, e: A.Event)
    ensures A.Run(cfg, es + [e]) == A.Step(cfg, A.Run(cfg, es), e)
  {
    assert (es + [e])[..|es|] == es;
  }

  lemma FailsafeSnoc(es: seq<F.Event>, e: F.Event)
    ensures F.Run(F.INITIAL, es + [e]) == F.Step(F.Run(F.INITIAL, es), e)
  {
    assert (es + [e])[..|es|] == es;
  }

  lemma StreamsSnoc(es: seq<T.Event>, e: T.Event)
    ensures T.Run(es + [e]) == T.Step(T.Run(es), e)
  {
    assert (es + [e])[..|es|] == es;
  }

  lemma VehicleSnoc(es: seq<V.Event>, e: V.Event)
    ensures V.Run(V.INITIAL, es + [e]) == V.Step(V.Run(V.INITIAL, es), e)
  {
    assert (es + [e])[..|es|] == es;
  }

  lemma TrackSnoc(fs: seq<K.Frame>, f: K.Frame)
    ensures K.Run(K.DEFAULT, fs + [f]) == K.Step(K.DEFAULT, K.Run(K.DEFAULT, fs), f)
  {
    assert (fs + [f])[..|fs|] == fs;
  }

  // --- The same poll on the components' states ---

  datatype World = World(
    vehicle: V.State,
    failsafe: F.Cache,
    streams: T.Setup,
    startup: S.Startup,
    runtime: A.Runtime,
    track: K.Track)

  predicate Sound(w: World) {
    T.Consistent(w.streams) && S.Consistent(w.startup) && A.Consistent(w.runtime) && K.Consistent(w.track)
  }

  /** Every component is where its own history has brought it. */
  function WorldOf(o: Options, l: Logs): (w: World)
    ensures Sound(w)
  {
    World(V.Run(V.INITIAL, l.vehicle), F.Run(F.INITIAL, l.failsafe), T.Run(l.streams), S.Run(o.startup, l.startup),
          A.Run(o.runtime, l.runtime), K.Run(K.DEFAULT, l.frames))
  }

  function Beginning(o: Options): World {
    World(V.INITIAL, F.INITIAL, T.RESET, S.Initial(o.startup), A.Initial(o.runtime), K.EMPTY)
  }

  function TellAck(w: World, command: int, result: Byte, source: Byte, targetSystem: Byte, targetComponent: Byte,
                   now: Time): (w': World)
    requires Sound(w)
    ensures Sound(w')
  {
    var w1 :=
      if command == SET_MESSAGE_INTERVAL then
        w.(streams := T.OnAck(w.streams, T.StreamAck(source, targetSystem, targetComponent, VerdictOf(result)), now))
      else w;
    var action := MapFlightAction(command);
    if action.None? || !ForCompanion(targetComponent) then w1
    else
      w1.(startup := S.OnAck(w.startup, action.value, OutcomeOf(result), result, source, now),
          runtime := A.OnAck(w.runtime, action.value, OutcomeOf(result), result, source, now))
  }

  function Tell(w: World, m: Message, now: Time): (w': World)
    requires Sound(w)
    ensures Sound(w')
  {
    match m
    case Telemetry(e) => if e.Look? then w else w.(vehicle := V.Step(w.vehicle, Stamp(e, now)))
    case Parameter(system, comp, id, value) => w.(failsafe := F.Step(w.failsafe, F.Param(system, comp, id, value)))
    case CommandAck(command, result, source, targetSystem, targetComponent) =>
      TellAck(w, command, result, source, targetSystem, targetComponent, now)
  }

  function TellAll(w: World, ms: seq<Message>, now: Time): (w': World)
    requires Sound(w)
    ensures Sound(w')
  {
    if ms == [] then w else Tell(TellAll(w, ms[..|ms| - 1], now), ms[|ms| - 1], now)
  }

  function Track(o: Options, w: World, p: PollInput): (w': World)
    requires Sound(w)
    ensures Sound(w')
  {
    if o.vision && p.frame.Some? then w.(track := K.Step(K.DEFAULT, w.track, K.Frame(p.frame.value, p.cameraNow)))
    else w
  }

  function Look(w: World, now: Time): World { w.(vehicle := V.Step(w.vehicle, V.Look(now))) }

  /** The failsafe cache and the telemetry setup see the snapshot. */
  function Watch(w: World, v: Vehicle, now: Time): (w': World)
    requires Sound(w)
    ensures Sound(w')
  {
    w.(failsafe := F.Step(w.failsafe, F.Observe(v.connected, v.systemId)),
       streams := T.Update(w.streams, v.connected, v.systemId, now).0)
  }

  ghost function Command(o: Options, w: World, v: Vehicle, now: Time, sent: bool): (r: (World, Option<FlightRequest>))
    requires Sound(w)
    ensures Sound(r.0)
  {
    var (s, command) := S.Update(o.startup, w.startup,
        S.Input(v, w.streams.phase == T.Running, F.Accepts(w.failsafe), now));
    (w.(startup := if command.Some? then S.OnSent(s, command.value.action, sent) else s), command)
  }

  ghost function Guide(o: Options, w: World, v: Vehicle, now: Time, targetSent: bool, landSent: bool):
    (r: (World, A.Actions))
    requires Sound(w)
    ensures Sound(r.0)
  {
    var i := A.Input(v, w.startup.phase, F.Accepts(w.failsafe), now, TargetOf(o, w.track, now));
    var (s, actions) := A.Update(o.runtime, w.runtime, i);
    (w.(runtime := A.Deliver(s, actions, targetSent, landSent)), actions)
  }

  /** Both flight machines have their turn, or only the startup if the poll ends with an exception. */
  ghost function Fly(o: Options, watched: World, v: Vehicle, now: Time, w: Writes, completes: bool):
    (r: (World, Sending))
    requires Sound(watched)
    ensures Sound(r.0)
  {
    var (w1, command) := Command(o, watched, v, now, w.startup);
    var (w2, actions) := if completes then Guide(o, w1, v, now, w.target, w.land) else (w1, A.NOTHING);
    (w2, Sending(command, actions))
  }

  /** The rest of a poll once the snapshot is taken. */
  ghost function Serve(o: Options, looked: World, v: Vehicle, now: Time, w: Writes, completes: bool):
    (r: (World, Sending))
    requires Sound(looked)
    ensures Sound(r.0)
  {
    Fly(o, Watch(looked, v, now), v, now, w, completes)
  }

  function Heard(o: Options, w: World, p: PollInput): (w': World)
    requires Sound(w)
    ensures Sound(w')
  {
    TellAll(Track(o, w, p), p.messages, p.now)
  }

  ghost function PollWorld(o: Options, w: World, p: PollInput): (r: (World, Sending))
    requires Sound(w)
    ensures Sound(r.0)
  {
    var heard := Heard(o, w, p);
    Serve(o, Look(heard, p.now), V.SnapshotOf(heard.vehicle, p.now), p.now, p.writes, true)
  }

  lemma TellAckTracks(o: Options, l: Logs, m: Message, now: Time)
    requires m.CommandAck?
    ensures WorldOf(o, OnMessage(l, m, now)) == Tell(WorldOf(o, l), m, now)
  {
    var a := T.StreamAck(m.source, m.targetSystem, m.targetComponent, VerdictOf(m.result));
    StreamsSnoc(l.streams, T.Ack(a, now));
    var action := MapFlightAction(m.command);
    if action.Some? {
      FlightAckTracks(o, l, action.value, OutcomeOf(m.result), m.result, m.source, now);
    }
  }

  lemma FlightAckTracks(o: Options, l: Logs, action: FlightAction, outcome: AckOutcome, raw: Byte, source: Byte,
                        now: Time)
    ensures S.Run(o.startup, l.startup + [S.Ack(action, outcome, raw, source, now)]) ==
            S.OnAck(S.Run(o.startup, l.startup), action, outcome, raw, source, now)
    ensures A.Run(o.runtime, l.runtime + [A.Ack(action, outcome, raw, source, now)]) ==
            A.OnAck(A.Run(o.runtime, l.runtime), action, outcome, raw, source, now)
  {
    StartupSnoc(o.startup, l.startup, S.Ack(action, outcome, raw, source, now));
    RuntimeSnoc(o.runtime, l.runtime, A.Ack(action, outcome, raw, source, now));
  }

  lemma TellTracks(o: Options, l: Logs, m: Message, now: Time)
    ensures WorldOf(o, OnMessage(l, m, now)) == Tell(WorldOf(o, l), m, now)
  {
    match m
    case Telemetry(e) => VehicleSnoc(l.vehicle, Stamp(e, now));
    case Parameter(system, comp, id, value) => FailsafeSnoc(l.failsafe, F.Param(system, comp, id, value));
    case CommandAck(_, _, _, _, _) => TellAckTracks(o, l, m, now);
  }

  lemma {:induction false} TellAllTracks(o: Options, l: Logs, ms: seq<Message>, now: Time)
    ensures WorldOf(o, OnMessages(l, ms, now)) == TellAll(WorldOf(o, l), ms, now)
  {
    if ms != [] {
      TellAllTracks(o, l, ms[..|ms| - 1], now);
      TellTracks(o, OnMessages(l, ms[..|ms| - 1], now), ms[|ms| - 1], now);
    }
  }

  lemma WatchTracks(o: Options, l: Logs, now: Time)
    ensures WorldOf(o, Monitored(l, now)) == Watch(Look(WorldOf(o, l), now), VehicleAt(l, now), now)
  {
    var v := VehicleAt(l, now);
    VehicleSnoc(l.vehicle, V.Look(now));
    FailsafeSnoc(l.failsafe, F.Observe(v.connected, v.systemId));
    StreamsSnoc(l.streams, T.Poll(v.connected, v.systemId, now));
  }

  lemma CommandTracks(o: Options, l: Logs, v: Vehicle, p: PollInput)
    ensures var (w, command) := Command(o, WorldOf(o, l), v, p.now, p.writes.startup);
            && w == WorldOf(o, StartupPolled(l, v, p))
            && command == S.Update(o.startup, S.Run(o.startup, l.startup), StartupInput(l, v, p.now)).1
  {
    StartupSnoc(o.startup, l.startup, S.Poll(StartupInput(l, v, p.now), p.writes.startup));
  }

  lemma GuideTracks(o: Options, l: Logs, v: Vehicle, p: PollInput)
    ensures var (w, actions) := Guide(o, WorldOf(o, l), v, p.now, p.writes.target, p.writes.land);
            && w == WorldOf(o, RuntimePolled(o, l, v, p))
            && actions == A.Update(o.runtime, A.Run(o.runtime, l.runtime), RuntimeInput(o, l, v, p.now)).1
  {
    RuntimeSnoc(o.runtime, l.runtime, A.Poll(RuntimeInput(o, l, v, p.now), p.writes.target, p.writes.land));
  }

  /** A poll on the states is the poll on the histories. */
  lemma PollTracks(o: Options, l: Logs, p: PollInput)
    ensures PollWorld(o, WorldOf(o, l), p) == (WorldOf(o, PollLogs(o, l, p)), SentBy(o, l, p))
  {
    var framed := OnFrame(o, l, p);
    if o.vision && p.frame.Some? {
      TrackSnoc(l.frames, K.Frame(p.frame.value, p.cameraNow));
    }
    assert WorldOf(o, framed) == Track(o, WorldOf(o, l), p);
    TellAllTracks(o, framed, p.messages, p.now);
    var heard := Received(o, l, p);
    var v := VehicleAt(heard, p.now);
    WatchTracks(o, heard, p.now);
    var seen := Monitored(heard, p.now);
    CommandTracks(o, seen, v, p);
    GuideTracks(o, StartupPolled(seen, v, p), v, p);
  }

  /** A start request on the states. */
  function Restarted(o: Options, w: World, now: Time): (World, bool) {
    if !(o.motionAllowed && o.startup.enabled && o.runtime.enabled) then (w, false)
    else RestartedFrom(o, Look(w, now), V.SnapshotOf(w.vehicle, now))
  }

  function RestartedFrom(o: Options, looked: World, v: Vehicle): (World, bool) {
    if v.connected && v.systemId.Some? && !v.armed &&
       StartupFinished(looked.startup.phase) && RuntimeFinished(looked.runtime.phase)
    then (looked.(startup := S.Initial(o.startup), runtime := A.Initial(o.runtime)), true)
    else (looked, false)
  }

  lemma RestartTracks(o: Options, l: Logs, now: Time)
    ensures Restarted(o, WorldOf(o, l), now) == (WorldOf(o, StartLogs(o, l, now)), MayStart(o, l, now))
  {
    VehicleSnoc(l.vehicle, V.Look(now));
    StartupSnoc(o.startup, l.startup, S.Restart(now));
    RuntimeSnoc(o.runtime, l.runtime, A.Restart(now));
  }

  // --- Schedules ---

  datatype Schedule = Schedule(
    nextHeartbeat: Time,
    heartbeatActive: bool,
    parameter: nat,
    nextParameter: Time,
    nextVersion: Time,
    nextBattery: Time,
    wasConnected: bool)

  const UNSCHEDULED := Schedule(0, false, 0, 0, 0, 0, false)

  predicate BeatDue(s: Schedule, now: Time) { now >= s.nextHeartbeat }

  function OnConnection(s: Schedule, v: Vehicle, now: Time): Schedule {
    var s1 := if v.connected && !s.wasConnected then s.(parameter := 0, nextParameter := now) else s;
    s1.(wasConnected := v.connected, heartbeatActive := s.heartbeatActive && v.connected)
  }

  function OnBeat(s: Schedule, v: Vehicle, now: Time, sent: bool): Schedule {
    if !BeatDue(s, now) then s
    else s.(nextHeartbeat := now + HEARTBEAT_INTERVAL,
            heartbeatActive := s.heartbeatActive || (v.connected && v.systemId.Some? && sent))
  }

  predicate ParameterDue(s: Schedule, v: Vehicle, ready: bool, now: Time) {
    ready && v.systemId.Some? && now >= s.nextParameter
  }

  function OnRequest(s: Schedule, v: Vehicle, ready: bool, accepted: bool, now: Time): Schedule {
    if !ParameterDue(s, v, ready, now) then s
    else if s.parameter + 1 >= PARAMETERS then
      s.(parameter := 0, nextParameter := now + if accepted then ACCEPTED_REFRESH else REJECTED_RETRY)
    else s.(parameter := s.parameter + 1, nextParameter := now + PARAMETER_SPACING)
  }

  predicate VersionDue(s: Schedule, v: Vehicle, ready: bool, now: Time) {
    ready && v.systemId.Some? && !v.metadataKnown && now >= s.nextVersion
  }

  predicate BatteryDue(s: Schedule, v: Vehicle, ready: bool, now: Time) {
    ready && v.systemId.Some? && !v.armingVoltageKnown && now >= s.nextBattery
  }

  function OnQueries(s: Schedule, v: Vehicle, ready: bool, now: Time): Schedule {
    s.(nextVersion := if VersionDue(s, v, ready, now) then now + METADATA_RETRY else s.nextVersion,
       nextBattery := if BatteryDue(s, v, ready, now) then now + BATTERY_RETRY else s.nextBattery)
  }

  /** The timers after a poll whose snapshot `looked` has just given. */
  ghost function Attended(s: Schedule, looked: World, v: Vehicle, now: Time, heartbeatSent: bool): Schedule
    requires Sound(looked)
  {
    var w := Watch(looked, v, now);
    var ready := w.streams.phase == T.Running;
    OnQueries(OnRequest(OnBeat(OnConnection(s, v, now), v, now, heartbeatSent), v, ready, F.Accepts(w.failsafe), now),
              v, ready, now)
  }

  // --- What goes out ---

  /** A frame before encoding. */
  datatype Outbound =
    | Heartbeat(systemId: Byte)
    | SetInterval(stream: T.StreamRequest)
    | ReadParameter(systemId: Byte, name: string)
    | RequestVersion(systemId: Byte)
    | ReadBattery(systemId: Byte)
    | Flight(request: FlightRequest)

  /** A frame that was written, and whether all of it got out. */
  datatype Mail = Mail(frame: Outbound, sent: bool)

  function Encoded(encode: Outbound -> seq<Byte>, mail: seq<Mail>): (r: seq<W.Attempt>)
    ensures |r| == |mail|
  {
    seq(|mail|, k requires 0 <= k < |mail| => W.Attempt(encode(mail[k].frame), mail[k].sent))
  }

  /** The mail went out, one after another. */
  ghost predicate Posted(encode: Outbound -> seq<Byte>, before: seq<Byte>, mail: seq<Mail>, after: seq<Byte>) {
    W.CarriedAll(before, Encoded(encode, mail), after)
  }

  lemma PostedOne(encode: Outbound -> seq<Byte>, before: seq<Byte>, frame: Outbound, sent: bool, after: seq<Byte>)
    requires W.Carried(before, encode(frame), after, sent)
    ensures Posted(encode, before, [Mail(frame, sent)], after)
  {
    W.CarriedOne(before, W.Attempt(encode(frame), sent), after);
    assert Encoded(encode, [Mail(frame, sent)]) == [W.Attempt(encode(frame), sent)];
  }

  lemma PostedConcat(encode: Outbound -> seq<Byte>, before: seq<Byte>, a: seq<Mail>, middle: seq<Byte>,
                     b: seq<Mail>, after: seq<Byte>)
    requires Posted(encode, before, a, middle) && Posted(encode, middle, b, after)
    ensures Posted(encode, before, a + b, after)
  {
    W.CarriedConcat(before, Encoded(encode, a), middle, Encoded(encode, b), after);
    assert Encoded(encode, a + b) == Encoded(encode, a) + Encoded(encode, b);
  }

  function BeatMail(s: Schedule, v: Vehicle, now: Time, sent: bool): seq<Mail> {
    if BeatDue(s, now) && v.connected && v.systemId.Some? then [Mail(Heartbeat(v.systemId.value), sent)] else []
  }

  function IntervalMail(r: Option<T.StreamRequest>, sent: bool): seq<Mail> {
    if r.Some? then [Mail(SetInterval(r.value), sent)] else []
  }

  function ParameterMail(s: Schedule, v: Vehicle, ready: bool, now: Time, sent: bool): seq<Mail> {
    if ParameterDue(s, v, ready, now) && s.parameter < PARAMETERS
    then [Mail(ReadParameter(v.systemId.value, F.PARAMETER_NAMES[s.parameter]), sent)] else []
  }

  function QueryMail(s: Schedule, v: Vehicle, ready: bool, now: Time, versionSent: bool, batterySent: bool): seq<Mail> {
    (if VersionDue(s, v, ready, now) then [Mail(RequestVersion(v.systemId.value), versionSent)] else []) +
    (if BatteryDue(s, v, ready, now) then [Mail(ReadBattery(v.systemId.value), batterySent)] else [])
  }

  /** The heartbeat, the interval request and the queries of a poll, in that order. */
  ghost function LinkMail(s: Schedule, looked: World, v: Vehicle, now: Time, w: Writes): seq<Mail>
    requires Sound(looked)
  {
    var after := Watch(looked, v, now);
    var ready := after.streams.phase == T.Running;
    var s1 := OnConnection(s, v, now);
    var s2 := OnBeat(s1, v, now, w.heartbeat);
    var s3 := OnRequest(s2, v, ready, F.Accepts(after.failsafe), now);
    (BeatMail(s1, v, now, w.heartbeat) +
     IntervalMail(T.Update(looked.streams, v.connected, v.systemId, now).1, w.stream)) +
    (ParameterMail(s2, v, ready, now, w.parameter) +
     QueryMail(s3, v, ready, now, w.version, w.battery))
  }

  /** The writes that precede the flight's. */
  function OfLink(w: Writes): Writes { w.(startup := false, target := false, land := false) }

  /** The startup command, guidance and LAND of a poll, in that order. */
  function FlightMail(sending: Sending, startupSent: bool, targetSent: bool, landSent: bool): seq<Mail> {
    CommandMail(sending.command, startupSent) + ActionMail(sending.actions, targetSent, landSent)
  }

  function CommandMail(command: Option<FlightRequest>, sent: bool): seq<Mail> {
    if command.Some? then [Mail(Flight(command.value), sent)] else []
  }

  function ActionMail(a: A.Actions, targetSent: bool, landSent: bool): seq<Mail> {
    (if a.target.Some? then [Mail(Flight(a.target.value), targetSent)] else []) +
    (if a.land.Some? then [Mail(Flight(a.land.value), landSent)] else [])
  }

  ghost function PollMail(s: Schedule, looked: World, v: Vehicle, now: Time, w: Writes, sending: Sending): seq<Mail>
    requires Sound(looked)
  {
    LinkMail(s, looked, v, now, OfLink(w)) + FlightMail(sending, w.startup, w.target, w.land)
  }

  // --- The component ---

  /** The runtime once it has heard how each of its actions went. */
  function Notified(s: A.Runtime, requests: seq<FlightRequest>, flags: seq<bool>): A.Runtime
    requires |requests| == |flags|
  {
    if requests == [] then s
    else
      var n := |requests| - 1;
      A.OnSent(Notified(s, requests[..n], flags[..n]), requests[n].action, flags[n])
  }

  predicate Labelled(a: A.Actions) {
    (a.target.Some? ==> a.target.value.action == LandingTarget) && (a.land.Some? ==> a.land.value.action == Land)
  }

  /** The flag of guidance and of LAND among the flags in sending order. */
  predicate TargetFlag(requests: seq<FlightRequest>, flags: seq<bool>)
    requires |flags| == |requests|
  {
    flags != [] && requests[0].action == LandingTarget && flags[0]
  }

  predicate LandFlag(requests: seq<FlightRequest>, flags: seq<bool>)
    requires |flags| == |requests|
  {
    flags != [] && requests[|flags| - 1].action == Land && flags[|flags| - 1]
  }

  lemma {:induction false} NotifiedOnce(s: A.Runtime, r: FlightRequest, flag: bool)
    ensures Notified(s, [r], [flag]) == A.OnSent(s, r.action, flag)
  {
    assert [r][..0] == [] && [flag][..0] == [];
  }

  lemma {:induction false} NotifiedTwice(s: A.Runtime, r: FlightRequest, r': FlightRequest, flag: bool, flag': bool)
    ensures Notified(s, [r, r'], [flag, flag']) == A.OnSent(A.OnSent(s, r.action, flag), r'.action, flag')
  {
    assert [r, r'][..1] == [r] && [flag, flag'][..1] == [flag];
    NotifiedOnce(s, r, flag);
  }

  lemma NotifiedIsDelivered(s: A.Runtime, a: A.Actions, flags: seq<bool>)
    requires Labelled(a) && |flags| == |a.Sequence()|
    ensures Notified(s, a.Sequence(), flags) ==
            A.Deliver(s, a, TargetFlag(a.Sequence(), flags), LandFlag(a.Sequence(), flags))
  {
    if a.target.Some? && a.land.Some? {
      assert a.Sequence() == [a.target.value, a.land.value] && flags == [flags[0], flags[1]];
      NotifiedTwice(s, a.target.value, a.land.value, flags[0], flags[1]);
    } else if a.target.Some? {
      assert a.Sequence() == [a.target.value] && flags == [flags[0]];
      NotifiedOnce(s, a.target.value, flags[0]);
    } else if a.land.Some? {
      assert a.Sequence() == [a.land.value] && flags == [flags[0]];
      NotifiedOnce(s, a.land.value, flags[0]);
    }
  }

  function MailOf(requests: seq<FlightRequest>, flags: seq<bool>): (mail: seq<Mail>)
    requires |requests| == |flags|
    ensures |mail| == |requests|
  {
    seq(|requests|, k requires 0 <= k < |requests| => Mail(Flight(requests[k]), flags[k]))
  }

  lemma MailIsActionMail(a: A.Actions, flags: seq<bool>)
    requires Labelled(a) && |flags| == |a.Sequence()|
    ensures MailOf(a.Sequence(), flags) ==
            ActionMail(a, TargetFlag(a.Sequence(), flags), LandFlag(a.Sequence(), flags))
  {
  }

  class CompanionApplication {
    const o: Options
    const encode: Outbound -> seq<Byte>
    const transport: W.Transport
    const vehicleState: V.VehicleState
    const failsafe: F.CompanionLinkFailsafe
    const streams: T.TelemetryStreamConfigurator
    const startup: S.FlightStartupController
    const runtime: A.AutonomyRuntime
    const tracker: K.TargetTracker
    var nextHeartbeat: Time
    var heartbeatActive: bool
    var parameterIndex: nat
    var nextParameter: Time
    var nextVersion: Time
    var nextBattery: Time
    var wasConnected: bool

    function Timers(): Schedule
      reads this
    {
      Schedule(nextHeartbeat, heartbeatActive, parameterIndex, nextParameter, nextVersion, nextBattery, wasConnected)
    }

    function Now(): World
      reads vehicleState, failsafe, streams, startup, runtime, tracker
    {
      World(vehicleState.Value(), failsafe.State(), streams.State(), startup.State(), runtime.State(), tracker.State())
    }

    ghost predicate Valid()
      reads this, failsafe, streams, startup, runtime, tracker
    {
      && startup.cfg == o.startup && runtime.cfg == o.runtime && tracker.cfg == K.DEFAULT
      && failsafe.Valid() && streams.Valid() && startup.Valid() && runtime.Valid() && tracker.Valid()
      && parameterIndex < PARAMETERS
    }

    constructor Init(o: Options, encode: Outbound -> seq<Byte>, transport: W.Transport)
      ensures Valid() && Now() == Beginning(o) && Timers() == UNSCHEDULED
      ensures this.o == o && this.encode == encode && this.transport == transport
    {
      this.o, this.encode, this.transport := o, encode, transport;
      vehicleState := new V.VehicleState();
      failsafe := new F.CompanionLinkFailsafe();
      streams := new T.TelemetryStreamConfigurator();
      startup := new S.FlightStartupController.Init(o.startup);
      runtime := new A.AutonomyRuntime.Init(o.runtime);
      tracker := new K.TargetTracker.Init(K.DEFAULT);
      nextHeartbeat, heartbeatActive, parameterIndex, nextParameter := 0, false, 0, 0;
      nextVersion, nextBattery, wasConnected := 0, 0, false;
    }

    /** The checks of the constructor: null stands for the exception. */
    static method Create(o: Options, camera: bool, preview: bool, encode: Outbound -> seq<Byte>, transport: W.Transport)
      returns (app: CompanionApplication?)
      ensures app == null <==>
              || o.startup.altitude <= 0.0 || o.runtime.landAfterLoss <= 0
              || o.startup.enabled != o.runtime.enabled
              || (o.startup.enabled && !(o.motionAllowed && o.extrinsics.Some?))
              || (o.extrinsics.Some? && !o.vision) || (!camera && (o.vision || preview))
      ensures app != null ==> Constructible(o)
      ensures app != null ==> fresh(app) && app.o == o && app.Valid() && app.Now() == Beginning(o)
    {
      if o.startup.altitude <= 0.0 || o.runtime.landAfterLoss <= 0 {
        return null;
      }
      if o.startup.enabled != o.runtime.enabled {
        return null;
      }
      if !o.motionAllowed && o.startup.enabled {
        return null;
      }
      if !camera && (o.vision || preview) {
        return null;
      }
      if o.extrinsics.Some? && !o.vision {
        return null;
      }
      if o.runtime.enabled && o.extrinsics.None? {
        return null;
      }
      app := new CompanionApplication.Init(o, encode, transport);
    }

    method OnAcknowledgement(command: int, result: Byte, source: Byte, targetSystem: Byte,
                           targetComponent: Byte, now: Time)
      requires Valid()
      modifies streams, startup, runtime
      ensures Valid() && Now() == TellAck(old(Now()), command, result, source, targetSystem, targetComponent, now)
    {
      if command == SET_MESSAGE_INTERVAL {
        streams.OnCommandAck(T.StreamAck(source, targetSystem, targetComponent, VerdictOf(result)), now);
      }
      var action := MapFlightAction(command);
      if action.None? || (targetComponent != 0 && targetComponent != T.COMPANION_COMPONENT) {
        return;
      }
      startup.OnCommandAck(action.value, OutcomeOf(result), result, source, now);
      runtime.OnCommandAck(action.value, OutcomeOf(result), result, source, now);
    }

    /** One decoded message reaches every component it concerns. */
    method Dispatch(m: Message, now: Time)
      requires Valid()
      modifies vehicleState, failsafe, streams, startup, runtime
      ensures Valid() && Now() == Tell(old(Now()), m, now)
    {
      match m
      case Telemetry(e) =>
        if !e.Look? {
          vehicleState.Handle(Stamp(e, now));
        }
      case Parameter(system, comp, id, value) =>
        failsafe.OnParameter(system, comp, id, value);
      case CommandAck(command, result, source, targetSystem, targetComponent) =>
        OnAcknowledgement(command, result, source, targetSystem, targetComponent, now);
    }

    method ReadMessages(messages: seq<Message>, now: Time)
      requires Valid()
      modifies vehicleState, failsafe, streams, startup, runtime
      ensures Valid() && Now() == TellAll(old(Now()), messages, now)
    {
      for k := 0 to |messages|
        invariant Valid() && Now() == TellAll(old(Now()), messages[..k], now)
      {
        assert messages[..k + 1][..k] == messages[..k];
        Dispatch(messages[k], now);
      }
      assert messages[..|messages|] == messages;
    }

    method NoteConnection(v: Vehicle, now: Time)
      requires parameterIndex < PARAMETERS
      modifies this`parameterIndex, this`nextParameter, this`wasConnected, this`heartbeatActive
      ensures parameterIndex < PARAMETERS && Timers() == OnConnection(old(Timers()), v, now)
    {
      if v.connected && !wasConnected {
        parameterIndex := 0;
        nextParameter := now;
      }
      wasConnected := v.connected;
      if !v.connected {
        heartbeatActive := false;
      }
    }

    method Beat(v: Vehicle, now: Time) returns (sent: bool)
      requires parameterIndex < PARAMETERS
      modifies this, transport
      ensures parameterIndex < PARAMETERS && Timers() == OnBeat(old(Timers()), v, now, sent)
      ensures Posted(encode, old(transport.wire), BeatMail(old(Timers()), v, now, sent), transport.wire)
    {
      sent := false;
      if now >= nextHeartbeat {
        if v.connected && v.systemId.Some? {
          sent := transport.WriteFrame(encode(Heartbeat(v.systemId.value)));
          PostedOne(encode, old(transport.wire), Heartbeat(v.systemId.value), sent, transport.wire);
          if sent {
            heartbeatActive := true;
          }
        }
        nextHeartbeat := now + HEARTBEAT_INTERVAL;
      }
    }

    method ConfigureStreams(v: Vehicle, now: Time) returns (sent: bool)
      requires streams.Valid()
      modifies streams, transport
      ensures streams.Valid() && streams.State() == T.Update(old(streams.State()), v.connected, v.systemId, now).0
      ensures var request := T.Update(old(streams.State()), v.connected, v.systemId, now).1;
              Posted(encode, old(transport.wire), IntervalMail(request, sent), transport.wire)
    {
      sent := false;
      var request := streams.Poll(v.connected, v.systemId, now);
      if request.Some? {
        sent := transport.WriteFrame(encode(SetInterval(request.value)));
        PostedOne(encode, old(transport.wire), SetInterval(request.value), sent, transport.wire);
      }
    }

    method RequestParameter(v: Vehicle, now: Time) returns (sent: bool)
      requires failsafe.Valid() && parameterIndex < PARAMETERS
      modifies this, transport
      ensures parameterIndex < PARAMETERS
      ensures Timers() == OnRequest(old(Timers()), v, streams.phase == T.Running, F.Accepts(failsafe.State()), now)
      ensures Posted(encode, old(transport.wire),
                     ParameterMail(old(Timers()), v, streams.phase == T.Running, now, sent), transport.wire)
    {
      sent := false;
      var ready := streams.phase == T.Running;
      if ready && v.systemId.Some? && now >= nextParameter {
        var request := ReadParameter(v.systemId.value, F.PARAMETER_NAMES[parameterIndex]);
        sent := transport.WriteFrame(encode(request));
        PostedOne(encode, old(transport.wire), request, sent, transport.wire);
        parameterIndex := parameterIndex + 1;
        if parameterIndex >= |F.PARAMETER_NAMES| {
          parameterIndex := 0;
          nextParameter := now + if failsafe.phase == F.PolicyAccepted then ACCEPTED_REFRESH else REJECTED_RETRY;
        } else {
          nextParameter := now + PARAMETER_SPACING;
        }
      }
    }

    method RequestVersionOnce(v: Vehicle, now: Time) returns (sent: bool)
      modifies this`nextVersion, transport
      ensures nextVersion ==
              if VersionDue(old(Timers()), v, streams.phase == T.Running, now) then now + METADATA_RETRY
              else old(nextVersion)
      ensures Posted(encode, old(transport.wire),
                     if VersionDue(old(Timers()), v, streams.phase == T.Running, now)
                     then [Mail(RequestVersion(v.systemId.value), sent)] else [], transport.wire)
    {
      sent := false;
      if streams.phase == T.Running && v.systemId.Some? && !v.metadataKnown && now >= nextVersion {
        sent := transport.WriteFrame(encode(RequestVersion(v.systemId.value)));
        PostedOne(encode, old(transport.wire), RequestVersion(v.systemId.value), sent, transport.wire);
        nextVersion := now + METADATA_RETRY;
      }
    }

    method RequestBatteryOnce(v: Vehicle, now: Time) returns (sent: bool)
      modifies this`nextBattery, transport
      ensures nextBattery ==
              if BatteryDue(old(Timers()), v, streams.phase == T.Running, now) then now + BATTERY_RETRY
              else old(nextBattery)
      ensures Posted(encode, old(transport.wire),
                     if BatteryDue(old(Timers()), v, streams.phase == T.Running, now)
                     then [Mail(ReadBattery(v.systemId.value), sent)] else [], transport.wire)
    {
      sent := false;
      if streams.phase == T.Running && v.systemId.Some? && !v.armingVoltageKnown && now >= nextBattery {
        sent := transport.WriteFrame(encode(ReadBattery(v.systemId.value)));
        PostedOne(encode, old(transport.wire), ReadBattery(v.systemId.value), sent, transport.wire);
        nextBattery := now + BATTERY_RETRY;
      }
    }

    method RequestQueries(v: Vehicle, now: Time) returns (versionSent: bool, batterySent: bool)
      modifies this`nextVersion, this`nextBattery, transport
      ensures Timers() == OnQueries(old(Timers()), v, streams.phase == T.Running, now)
      ensures Posted(encode, old(transport.wire),
                     QueryMail(old(Timers()), v, streams.phase == T.Running, now, versionSent, batterySent),
                     transport.wire)
    {
      ghost var ready := streams.phase == T.Running;
      versionSent := RequestVersionOnce(v, now);
      ghost var (middle, timers) := (transport.wire, Timers());
      batterySent := RequestBatteryOnce(v, now);
      PostedConcat(encode, old(transport.wire),
                   if VersionDue(old(Timers()), v, ready, now)
                   then [Mail(RequestVersion(v.systemId.value), versionSent)] else [],
                   middle,
                   if BatteryDue(timers, v, ready, now) then [Mail(ReadBattery(v.systemId.value), batterySent)] else [],
                   transport.wire);
    }

    method FlyStartup(v: Vehicle, now: Time) returns (command: Option<FlightRequest>, sent: bool)
      requires startup.cfg == o.startup && startup.Valid() && failsafe.Valid()
      modifies startup, transport
      ensures startup.Valid()
      ensures var i := S.Input(v, streams.phase == T.Running, F.Accepts(failsafe.State()), now);
              var (s, c) := S.Update(o.startup, old(startup.State()), i);
              && command == c
              && startup.State() == if c.Some? then S.OnSent(s, c.value.action, sent) else s
      ensures Posted(encode, old(transport.wire), CommandMail(command, sent), transport.wire)
    {
      sent := false;
      command := startup.Poll(S.Input(v, streams.phase == T.Running, failsafe.phase == F.PolicyAccepted, now));
      if command.Some? {
        sent := transport.WriteFrame(encode(Flight(command.value)));
        PostedOne(encode, old(transport.wire), Flight(command.value), sent, transport.wire);
        startup.OnActionSent(command.value.action, sent);
      }
    }

    method SendAction(request: FlightRequest) returns (sent: bool)
      requires runtime.Valid()
      modifies runtime, transport
      ensures runtime.Valid() && runtime.State() == A.OnSent(old(runtime.State()), request.action, sent)
      ensures Posted(encode, old(transport.wire), [Mail(Flight(request), sent)], transport.wire)
    {
      sent := transport.WriteFrame(encode(Flight(request)));
      PostedOne(encode, old(transport.wire), Flight(request), sent, transport.wire);
      runtime.OnActionSent(request.action, sent);
    }

    /** The source's loop over the actions of one update: guidance, LAND or both. */
    method SendActions(requests: seq<FlightRequest>) returns (flags: seq<bool>)
      requires runtime.Valid()
      modifies runtime, transport
      ensures runtime.Valid() && |flags| == |requests|
      ensures runtime.State() == Notified(old(runtime.State()), requests, flags)
      ensures Posted(encode, old(transport.wire), MailOf(requests, flags), transport.wire)
    {
      flags := [];
      for k := 0 to |requests|
        invariant runtime.Valid() && |flags| == k
        invariant runtime.State() == Notified(old(runtime.State()), requests[..k], flags)
        invariant Posted(encode, old(transport.wire), MailOf(requests[..k], flags), transport.wire)
      {
        ghost var middle := transport.wire;
        var sent := SendAction(requests[k]);
        PostedConcat(encode, old(transport.wire), MailOf(requests[..k], flags), middle,
                     [Mail(Flight(requests[k]), sent)], transport.wire);
        assert MailOf(requests[..k + 1], flags + [sent]) ==
               MailOf(requests[..k], flags) + [Mail(Flight(requests[k]), sent)];
        assert requests[..k + 1][..k] == requests[..k] && (flags + [sent])[..k] == flags;
        flags := flags + [sent];
      }
      assert requests[..|requests|] == requests;
    }

    method SendBoth(requests: seq<FlightRequest>, ghost a: A.Actions) returns (targetSent: bool, landSent: bool)
      requires runtime.Valid() && requests == a.Sequence() && Labelled(a)
      modifies runtime, transport
      ensures runtime.Valid() && runtime.State() == A.Deliver(old(runtime.State()), a, targetSent, landSent)
      ensures Posted(encode, old(transport.wire), ActionMail(a, targetSent, landSent), transport.wire)
    {
      ghost var before := runtime.State();
      var flags := SendActions(requests);
      NotifiedIsDelivered(before, a, flags);
      MailIsActionMail(a, flags);
      targetSent, landSent := TargetFlag(requests, flags), LandFlag(requests, flags);
    }

    /** A fault in the guidance target is thrown before the runtime is updated. */
    method FlyRuntime(v: Vehicle, now: Time)
      returns (fault: Option<X.Fault>, ghost actions: A.Actions, targetSent: bool, landSent: bool)
      requires runtime.cfg == o.runtime && runtime.Valid() && failsafe.Valid() && tracker.cfg == K.DEFAULT
      modifies runtime, transport
      ensures runtime.Valid()
      ensures var t := GuidanceTarget(o, tracker.State(), now);
              fault == if t.Ok? then None else Some(t.fault)
      ensures var i := A.Input(v, startup.phase, F.Accepts(failsafe.State()), now, TargetOf(o, tracker.State(), now));
              var (s, a) := A.Update(o.runtime, old(runtime.State()), i);
              if fault.None?
              then actions == a && runtime.State() == A.Deliver(s, a, targetSent, landSent)
              else actions == A.NOTHING && runtime.State() == old(runtime.State())
      ensures Posted(encode, old(transport.wire), ActionMail(actions, targetSent, landSent), transport.wire)
    {
      var target := CurrentTarget(now);
      if target.Error? {
        return Some(target.fault), A.NOTHING, false, false;
      }
      fault := None;
      var i := A.Input(v, startup.phase, failsafe.phase == F.PolicyAccepted, now, target.value);
      ghost var before := runtime.State();
      var requests := runtime.Poll(i);
      actions := A.Update(o.runtime, before, i).1;
      A.ActionsAreSafe(o.runtime, before, i);
      targetSent, landSent := SendBoth(requests, actions);
    }

    method CurrentTarget(now: Time) returns (target: X.Result<Option<BodyPosition>>)
      requires tracker.cfg == K.DEFAULT
      ensures target == GuidanceTarget(o, tracker.State(), now)
    {
      if !o.vision || o.extrinsics.None? {
        return X.Ok(None);
      }
      var snapshot := K.SnapshotOf(K.DEFAULT, tracker.State(), now);
      if snapshot.phase != K.Locked || snapshot.position.None? || snapshot.age.None? ||
         snapshot.age.value > MAXIMUM_TARGET_AGE
      {
        return X.Ok(None);
      }
      var body := X.CameraToBody(InCamera(snapshot.position.value), o.extrinsics.value);
      target := if body.Ok? then X.Ok(Some(body.value)) else X.Error(body.fault);
    }

    method Listen(frame: Option<seq<K.Observation>>, cameraNow: Time, messages: seq<Message>,
                  now: Time, ghost p: PollInput)
      requires Valid() && p.frame == frame && p.cameraNow == cameraNow
      modifies vehicleState, failsafe, streams, startup, runtime, tracker
      ensures Valid() && Now() == TellAll(Track(o, old(Now()), p), messages, now)
    {
      if o.vision && frame.Some? {
        tracker.Update(K.Frame(frame.value, cameraNow));
      }
      ReadMessages(messages, now);
    }

    /** The failsafe cache, the heartbeat and the telemetry setup. */
    method AttendLink(v: Vehicle, now: Time) returns (heartbeat: bool, stream: bool, ghost mail: seq<Mail>)
      requires Valid()
      modifies this, failsafe, streams, transport
      ensures Valid() && Now() == Watch(old(Now()), v, now)
      ensures Timers() == OnBeat(OnConnection(old(Timers()), v, now), v, now, heartbeat)
      ensures mail == BeatMail(OnConnection(old(Timers()), v, now), v, now, heartbeat) +
                      IntervalMail(T.Update(old(streams.State()), v.connected, v.systemId, now).1, stream)
      ensures Posted(encode, old(transport.wire), mail, transport.wire)
    {
      failsafe.ObserveVehicle(v.connected, v.systemId);
      NoteConnection(v, now);
      heartbeat := Beat(v, now);
      ghost var middle := transport.wire;
      stream := ConfigureStreams(v, now);
      ghost var first := BeatMail(OnConnection(old(Timers()), v, now), v, now, heartbeat);
      ghost var second := IntervalMail(T.Update(old(streams.State()), v.connected, v.systemId, now).1, stream);
      PostedConcat(encode, old(transport.wire), first, middle, second, transport.wire);
      mail := first + second;
    }

    /** The parameter, metadata and battery queries. */
    method AttendQueries(v: Vehicle, now: Time)
      returns (parameter: bool, version: bool, battery: bool, ghost mail: seq<Mail>)
      requires failsafe.Valid() && parameterIndex < PARAMETERS
      modifies this, transport
      ensures parameterIndex < PARAMETERS
      ensures var ready := streams.phase == T.Running;
              var s := OnRequest(old(Timers()), v, ready, F.Accepts(failsafe.State()), now);
              && Timers() == OnQueries(s, v, ready, now)
              && mail == ParameterMail(old(Timers()), v, ready, now, parameter) +
                        QueryMail(s, v, ready, now, version, battery)
      ensures Posted(encode, old(transport.wire), mail, transport.wire)
    {
      parameter := RequestParameter(v, now);
      ghost var (middle, s) := (transport.wire, Timers());
      version, battery := RequestQueries(v, now);
      ghost var first := ParameterMail(old(Timers()), v, streams.phase == T.Running, now, parameter);
      ghost var second := QueryMail(s, v, streams.phase == T.Running, now, version, battery);
      PostedConcat(encode, old(transport.wire), first, middle, second, transport.wire);
      mail := first + second;
    }

    /** Everything before the flight: the writes record what got out. */
    method Attend(v: Vehicle, now: Time) returns (writes: Writes, ghost mail: seq<Mail>)
      requires Valid()
      modifies this, failsafe, streams, transport
      ensures Valid() && Now() == Watch(old(Now()), v, now)
      ensures Timers() == Attended(old(Timers()), old(Now()), v, now, writes.heartbeat)
      ensures writes == OfLink(writes) && mail == LinkMail(old(Timers()), old(Now()), v, now, writes)
      ensures Posted(encode, old(transport.wire), mail, transport.wire)
    {
      var heartbeat, stream;
      ghost var first;
      heartbeat, stream, first := AttendLink(v, now);
      ghost var middle := transport.wire;
      var parameter, version, battery;
      ghost var second;
      parameter, version, battery, second := AttendQueries(v, now);
      writes := NO_WRITES.(heartbeat := heartbeat, stream := stream, parameter := parameter, version := version,
                           battery := battery);
      PostedConcat(encode, old(transport.wire), first, middle, second, transport.wire);
      mail := first + second;
    }

    method FlyBoth(v: Vehicle, now: Time, link: Writes)
      returns (fault: Option<X.Fault>, writes: Writes, ghost sending: Sending, ghost mail: seq<Mail>)
      requires Valid()
      modifies startup, runtime, transport
      ensures Valid() && OfLink(writes) == OfLink(link)
      ensures var t := GuidanceTarget(o, old(Now()).track, now);
              fault == if t.Ok? then None else Some(t.fault)
      ensures (Now(), sending) == Fly(o, old(Now()), v, now, writes, fault.None?)
      ensures mail == FlightMail(sending, writes.startup, writes.target, writes.land)
      ensures Posted(encode, old(transport.wire), mail, transport.wire)
    {
      var command, commandSent := FlyStartup(v, now);
      ghost var middle := transport.wire;
      var targetSent, landSent;
      ghost var actions;
      fault, actions, targetSent, landSent := FlyRuntime(v, now);
      writes := link.(startup := commandSent, target := targetSent, land := landSent);
      sending := Sending(command, actions);
      ghost var (first, second) := (CommandMail(command, commandSent), ActionMail(actions, targetSent, landSent));
      PostedConcat(encode, old(transport.wire), first, middle, second, transport.wire);
      mail := first + second;
    }

    /** The rest of a poll once the snapshot is taken. */
    method Continue(v: Vehicle, now: Time)
      returns (fault: Option<X.Fault>, writes: Writes, ghost sending: Sending, ghost mail: seq<Mail>)
      requires Valid()
      modifies this, failsafe, streams, startup, runtime, transport
      ensures Valid()
      ensures var t := GuidanceTarget(o, old(Now()).track, now);
              fault == if t.Ok? then None else Some(t.fault)
      ensures (Now(), sending) == Serve(o, old(Now()), v, now, writes, fault.None?)
      ensures Timers() == Attended(old(Timers()), old(Now()), v, now, writes.heartbeat)
      ensures mail == PollMail(old(Timers()), old(Now()), v, now, writes, sending)
      ensures Posted(encode, old(transport.wire), mail, transport.wire)
    {
      var link;
      ghost var first;
      link, first := Attend(v, now);
      ghost var middle := transport.wire;
      ghost var second;
      fault, writes, sending, second := FlyBoth(v, now, link);
      PostedConcat(encode, old(transport.wire), first, middle, second, transport.wire);
      mail := first + second;
    }

    /** One poll: the frame, the messages, the snapshot, then every component in
        the source's order. With extrinsics that are not rigid a locked track ends
        it with an exception after the startup's turn. */
    method PollOnce(frame: Option<seq<K.Observation>>, cameraNow: Time, messages: seq<Message>, now: Time)
      returns (fault: Option<X.Fault>, writes: Writes, ghost sending: Sending, ghost mail: seq<Mail>)
      requires Valid()
      modifies this, vehicleState, failsafe, streams, startup, runtime, tracker, transport
      ensures Valid()
      ensures WellFormed(o) ==> fault.None?
      ensures var p := PollInput(frame, cameraNow, messages, now, writes);
              var heard := Heard(o, old(Now()), p);
              var (looked, v) := (Look(heard, now), V.SnapshotOf(heard.vehicle, now));
              && (fault.Some? <==> GuidanceTarget(o, heard.track, now).Error?)
              && (fault.None? ==> (Now(), sending) == PollWorld(o, old(Now()), p))
              && (fault.Some? ==> (Now(), sending) == Serve(o, looked, v, now, writes, false))
              && Timers() == Attended(old(Timers()), looked, v, now, writes.heartbeat)
              && mail == PollMail(old(Timers()), looked, v, now, writes, sending)
      ensures Posted(encode, old(transport.wire), mail, transport.wire)
    {
      var v;
      ghost var heard;
      v, heard := Begin(frame, cameraNow, messages, now, PollInput(frame, cameraNow, messages, now, NO_WRITES));
      fault, writes, sending, mail := Continue(v, now);
      if WellFormed(o) {
        RigidNeverFaults(o, heard.track, now);
      }
    }

    /** What comes in, up to the snapshot. */
    method Begin(frame: Option<seq<K.Observation>>, cameraNow: Time, messages: seq<Message>, now: Time,
                 ghost p: PollInput)
      returns (v: Vehicle, ghost heard: World)
      requires Valid() && p == PollInput(frame, cameraNow, messages, now, p.writes)
      modifies vehicleState, failsafe, streams, startup, runtime, tracker
      ensures Valid() && heard == Heard(o, old(Now()), p)
      ensures Now() == Look(heard, now) && v == V.SnapshotOf(heard.vehicle, now)
    {
      Listen(frame, cameraNow, messages, now, p);
      heard := Now();
      v := TakeSnapshot(now);
    }

    method TakeSnapshot(now: Time) returns (v: Vehicle)
      modifies vehicleState
      ensures v == V.SnapshotOf(old(vehicleState.Value()), now)
      ensures vehicleState.Value() == V.Step(old(vehicleState.Value()), V.Look(now))
    {
      v := vehicleState.Snapshot(now);
    }

    /** The operator's request; true when the scenario starts over. */
    method RequestAutonomyStart(now: Time) returns (started: bool)
      requires Valid()
      modifies vehicleState, startup, runtime
      ensures Valid() && (Now(), started) == Restarted(o, old(Now()), now)
    {
      if !o.motionAllowed {
        return false;
      }
      if !(o.startup.enabled && o.runtime.enabled) {
        return false;
      }
      var v := TakeSnapshot(now);
      started := StartOver(v);
    }

    method StartOver(v: Vehicle) returns (started: bool)
      requires Valid()
      modifies startup, runtime
      ensures Valid() && (Now(), started) == RestartedFrom(o, old(Now()), v)
    {
      if !v.connected || v.systemId.None? {
        return false;
      }
      if v.armed {
        return false;
      }
      if !StartupFinished(startup.phase) || !RuntimeFinished(runtime.phase) {
        return false;
      }
      startup.Restart();
      runtime.Restart();
      return true;
    }
  }
}
