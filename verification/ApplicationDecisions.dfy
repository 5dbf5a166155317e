/** The machines' decision tables inside every run, on inputs read off the messages. */
module ApplicationDecisions {
  import opened FlightTypes
  import opened Application
  import opened ApplicationTiming
  import A = Autonomy
  import F = LinkFailsafe
  import Guidance
  import H = AutonomyHistory
  import L = ApplicationFlights
  import M = ApplicationMessages
  import R = ApplicationRuns
  import RT = RuntimeTable
  import S = FlightStartup
  import ST = StartupTable
  import T = TelemetryStreams
  import TT = StreamTable
  import VI = ApplicationVision
  import VR = VehicleReports
  import X = Transform

  // --- What the machines are shown ---

  /** The logs once the poll's messages are in. */
  ghost function HeardAt(o: Options, h: seq<Event>): Logs
    requires h != [] && h[|h| - 1].Poll?
  {
    Received(o, LogsOf(o, h[..|h| - 1]), h[|h| - 1].input)
  }

  /** And once failsafe and telemetry setup have seen the vehicle. */
  ghost function SeenAt(o: Options, h: seq<Event>): Logs
    requires h != [] && h[|h| - 1].Poll?
  {
    Monitored(HeardAt(o, h), h[|h| - 1].input.now)
  }

  ghost function VehicleIn(o: Options, h: seq<Event>): Vehicle
    requires h != [] && h[|h| - 1].Poll?
  {
    VehicleAt(HeardAt(o, h), h[|h| - 1].input.now)
  }

  lemma HeardIsTimely(o: Options, h: seq<Event>)
    requires Clock(h) && h != [] && h[|h| - 1].Poll?
    ensures Timely(HeardAt(o, h), h[|h| - 1].input.now) && Timely(SeenAt(o, h), h[|h| - 1].input.now)
  {
    var (l, p) := (LogsOf(o, h[..|h| - 1]), h[|h| - 1].input);
    LogsAreTimely(o, h[..|h| - 1], p.now);
    MessagesAreTimely(OnFrame(o, l, p), p.messages, p.now);
    MonitoredIsTimely(HeardAt(o, h), SeenAt(o, h), p.now);
  }

  /** In every run every poll sees exactly what the reports up to then say. */
  lemma VehicleIsShown(o: Options, h: seq<Event>)
    requires Clock(h) && h != [] && h[|h| - 1].Poll?
    ensures VR.Shows(VehicleIn(o, h), HeardAt(o, h).vehicle, h[|h| - 1].input.now)
  {
    HeardIsTimely(o, h);
    VR.SnapshotShows(HeardAt(o, h).vehicle, h[|h| - 1].input.now);
  }

  /** The vehicle is connected and its autopilot has last reported the whole policy
      since it became the vehicle. */
  ghost predicate PolicyKnown(v: Vehicle, es: seq<F.Event>) {
    && v.connected && v.systemId.Some?
    && var id := v.systemId.value;
       && id != 0 && F.Latest(es, "FS_GCS_ENABLE") == Some(Num(5.0))
       && (exists t: real :: F.Latest(es, "FS_GCS_TIMEOUT") == Some(Num(t)) && 2.0 <= t <= 10.0)
       && (exists n: nat :: n <= 0xFFFF_FFFF && F.Latest(es, "FS_OPTIONS") == Some(Num(n as real)) &&
             n / 2 % 2 == 0 && n / 16 % 2 == 0)
       && F.Latest(es, "SYSID_MYGCS") == Some(Num(id as real))
  }

  lemma LinkIsPolicy(l: Logs, now: Time)
    ensures var v := VehicleAt(l, now);
            LinkAccepted(Monitored(l, now)) <==> PolicyKnown(v, Monitored(l, now).failsafe)
  {
    var (v, es) := (VehicleAt(l, now), Monitored(l, now).failsafe);
    F.AcceptedIffPolicy(es);
    assert F.Session(es) == if v.connected then v.systemId else None;
  }

  /** The startup's input in the last poll. */
  ghost predicate StartupSees(o: Options, h: seq<Event>, i: S.Input)
    requires h != [] && h[|h| - 1].Poll?
  {
    && i.vehicle == VehicleIn(o, h) && i.now == h[|h| - 1].input.now
    && (i.telemetryReady <==> |T.Log(SeenAt(o, h).streams).accepted| == 6)
    && (i.linkAccepted <==> PolicyKnown(i.vehicle, SeenAt(o, h).failsafe))
  }

  /** A poll with this input and write result takes the startup by its table from s to s'. */
  ghost predicate StartupGoes(cfg: S.Config, s: S.Startup, i: S.Input, sent: bool, command: Option<FlightRequest>,
                              s': S.Startup) {
    exists u: S.Startup ::
      && ST.PollDecides(cfg, s, i, u, command)
      && if command.Some? then ST.WriteDecides(u, command.value.action, sent, s') else s' == u
  }

  lemma StartupStepGoes(cfg: S.Config, s: S.Startup, i: S.Input, sent: bool)
    requires S.Consistent(s)
    ensures StartupGoes(cfg, s, i, sent, S.Update(cfg, s, i).1, S.Step(cfg, s, S.Poll(i, sent)))
  {
    var (u, command) := S.Update(cfg, s, i);
    ST.PollFollowsTable(cfg, s, i);
    if command.Some? { ST.WriteFollowsTable(u, command.value.action, sent); }
  }

  lemma StartupTurn(o: Options, l: Logs, p: PollInput)
    ensures var (heard, seen) := (Received(o, l, p), Monitored(Received(o, l, p), p.now));
            StartupGoes(o.startup, S.Run(o.startup, seen.startup), StartupInput(seen, VehicleAt(heard, p.now), p.now),
                        p.writes.startup, SentBy(o, l, p).command, S.Run(o.startup, PollLogs(o, l, p).startup))
  {
    var (heard, seen) := (Received(o, l, p), Monitored(Received(o, l, p), p.now));
    var i := StartupInput(seen, VehicleAt(heard, p.now), p.now);
    StartupSnoc(o.startup, seen.startup, S.Poll(i, p.writes.startup));
    StartupStepGoes(o.startup, S.Run(o.startup, seen.startup), i, p.writes.startup);
  }

  lemma StartupInputIsSeen(o: Options, h: seq<Event>)
    requires Clock(h) && h != [] && h[|h| - 1].Poll?
    ensures StartupSees(o, h, StartupInput(SeenAt(o, h), VehicleIn(o, h), h[|h| - 1].input.now))
  {
    HeardIsTimely(o, h);
    T.SetupLanguage(SeenAt(o, h).streams);
    LinkIsPolicy(HeardAt(o, h), h[|h| - 1].input.now);
  }

  /** In every run a poll takes the startup by its table to its next state and sends
      its command, on what the messages have said. */
  lemma {:induction false} StartupDecides(o: Options, h: seq<Event>)
    requires Clock(h) && h != [] && h[|h| - 1].Poll?
    ensures exists i ::
              && StartupSees(o, h, i)
              && StartupGoes(o.startup, S.Run(o.startup, SeenAt(o, h).startup), i, h[|h| - 1].input.writes.startup,
                             R.SentAt(o, h).command, S.Run(o.startup, LogsOf(o, h).startup))
  {
    StartupInputIsSeen(o, h);
    StartupTurn(o, LogsOf(o, h[..|h| - 1]), h[|h| - 1].input);
  }

  /** What a startup command says in every run: the first vehicle of the flight as its
      target, the takeoff altitude in TAKEOFF alone, and nothing else. */
  lemma {:induction false} CommandIsExact(o: Options, h: seq<Event>)
    requires h != [] && h[|h| - 1].Poll? && R.SentAt(o, h).command.Some?
    ensures var r := R.SentAt(o, h).command.value;
            && r.action in {SetGuidedMode, Arm, Takeoff} && r.confirmation < 3
            && Some(r.systemId) == R.FirstVehicle(o, h)
            && r.altitude == (if r.action == Takeoff then o.startup.altitude else 0.0)
            && r.position == BodyPosition(Num(0.0), Num(0.0), Num(0.0)) && r.timeUsec == 0
  {
    var (l, p) := (LogsOf(o, h[..|h| - 1]), h[|h| - 1].input);
    var (heard, seen) := (Received(o, l, p), Monitored(Received(o, l, p), p.now));
    ST.CommandSays(o.startup, S.Run(o.startup, seen.startup), StartupInput(seen, VehicleAt(heard, p.now), p.now));
    R.CommandsGoToTheFirst(o, h);
  }

  // --- The runtime ---

  /** The runtime's input in the last poll. */
  ghost predicate RuntimeSees(o: Options, h: seq<Event>, i: A.Input)
    requires h != [] && h[|h| - 1].Poll?
  {
    var (frames, now) := (M.FramesOf(o, h), h[|h| - 1].input.now);
    && i.vehicle == VehicleIn(o, h) && i.now == now
    && i.startup == R.StartupPhase(o, LogsOf(o, h))
    && (i.linkAccepted <==> PolicyKnown(i.vehicle, SeenAt(o, h).failsafe))
    && (o.extrinsics.Some? && X.Accepts(o.extrinsics.value) ==>
          i.target ==
          if VI.TagInView(frames, now) then Some(VI.Placed(o.extrinsics.value, VI.SmoothedTag(frames))) else None)
    && (o.extrinsics.None? ==> i.target == None)
  }

  ghost predicate RuntimeGoes(cfg: A.Config, s: A.Runtime, i: A.Input, targetSent: bool, landSent: bool, a: A.Actions,
                              s': A.Runtime) {
    exists u: A.Runtime, w: A.Runtime ::
      && RT.PollDecides(cfg, s, i, u, a)
      && (if a.target.Some? then RT.WriteDecides(u, LandingTarget, targetSent, w) else w == u)
      && (if a.land.Some? then RT.WriteDecides(w, Land, landSent, s') else s' == w)
  }

  lemma RuntimeStepGoes(cfg: A.Config, s: A.Runtime, i: A.Input, targetSent: bool, landSent: bool)
    requires A.Consistent(s)
    ensures RuntimeGoes(cfg, s, i, targetSent, landSent, A.Update(cfg, s, i).1,
                        A.Step(cfg, s, A.Poll(i, targetSent, landSent)))
  {
    var (u, a) := A.Update(cfg, s, i);
    RT.PollFollowsTable(cfg, s, i);
    var w := if a.target.Some? then A.OnSent(u, LandingTarget, targetSent) else u;
    RT.WriteFollowsTable(u, LandingTarget, targetSent);
    RT.WriteFollowsTable(w, Land, landSent);
    var s' := A.Deliver(u, a, targetSent, landSent);
    assert if a.land.Some? then RT.WriteDecides(w, Land, landSent, s') else s' == w;
  }

  lemma RuntimeInputIsSeen(o: Options, h: seq<Event>)
    requires WellFormed(o) && h != [] && h[|h| - 1].Poll?
    ensures RuntimeSees(o, h, L.Turn(o, h).input)
  {
    LinkIsPolicy(HeardAt(o, h), h[|h| - 1].input.now);
    PolledKeepsLink(o, LogsOf(o, h[..|h| - 1]), h[|h| - 1].input);
    if o.extrinsics.Some? { VI.TargetExactly(o, h); }
  }

  lemma PolledKeepsLink(o: Options, l: Logs, p: PollInput)
    ensures L.Polled(o, l, p).failsafe == Monitored(Received(o, l, p), p.now).failsafe
    ensures PollLogs(o, l, p).startup == L.Polled(o, l, p).startup
  {
  }

  /** In every run a poll takes the runtime by its table to its next state and sends
      its requests, on what messages and camera have said. */
  lemma {:induction false} RuntimeDecides(o: Options, h: seq<Event>)
    requires WellFormed(o) && h != [] && h[|h| - 1].Poll?
    ensures var w := h[|h| - 1].input.writes;
            exists i ::
              && RuntimeSees(o, h, i)
              && RuntimeGoes(o.runtime, A.Run(o.runtime, L.Before(o, h)), i, w.target, w.land, R.SentAt(o, h).actions,
                             A.Run(o.runtime, LogsOf(o, h).runtime))
  {
    var (l, p) := (LogsOf(o, h[..|h| - 1]), h[|h| - 1].input);
    RuntimeInputIsSeen(o, h);
    L.RuntimeTurn(o, l, p);
    RuntimeSnoc(o.runtime, L.Before(o, h), L.Turn(o, h));
    RuntimeStepGoes(o.runtime, A.Run(o.runtime, L.Before(o, h)), L.Turn(o, h).input, p.writes.target, p.writes.land);
  }

  /** In every run guidance ends at 0.20 m and not before: see RuntimeTable.LandingGuidance. */
  lemma {:induction false} LandingGuidance(o: Options, h: seq<Event>)
    requires Clock(h) && h != [] && h[|h| - 1].Poll?
    requires A.Run(o.runtime, L.Before(o, h)).phase == A.Landing
    requires var accepted := H.LandAcceptedAt(o.runtime, L.Before(o, h));
             accepted.Some? ==> h[|h| - 1].input.now < accepted.value + 90_000_000_000
    requires var (i, v) := (L.Turn(o, h).input, VehicleIn(o, h));
             v.connected && v.armed && v.systemId.Some? && i.linkAccepted
    ensures H.LandAcceptedAt(o.runtime, L.Before(o, h)).Some?
    ensures var (a, s', sent) := (R.SentAt(o, h).actions, A.Run(o.runtime, LogsOf(o, h).runtime),
                                  H.StreakTargets(o.runtime, L.Before(o, h)));
            if RT.LowAltitude(VehicleIn(o, h)) then
              a == A.Actions(None, None) && s'.phase == A.Landing && !s'.targetActive
            else
              RT.Followable(L.Turn(o, h).input.target) ==>
                (a.target.Some? <==> sent == [] || h[|h| - 1].input.now >= sent[|sent| - 1] + 200_000_000)
  {
    L.TurnIsTimely(o, h);
    RT.LandingGuidance(o.runtime, L.Before(o, h), L.Turn(o, h));
  }

  // --- The telemetry setup ---

  /** In every run a poll takes the telemetry setup by its table. */
  lemma {:induction false} StreamsDecide(o: Options, h: seq<Event>)
    requires h != [] && h[|h| - 1].Poll?
    ensures var (s, v, now) := (T.Run(HeardAt(o, h).streams), VehicleIn(o, h), h[|h| - 1].input.now);
            TT.PollDecides(s, v.connected, v.systemId, now, T.Run(LogsOf(o, h).streams),
                           T.Update(s, v.connected, v.systemId, now).1)
  {
    var (heard, v, now) := (HeardAt(o, h), VehicleIn(o, h), h[|h| - 1].input.now);
    StreamsSnoc(heard.streams, T.Poll(v.connected, v.systemId, now));
    TT.PollFollowsTable(T.Run(heard.streams), v.connected, v.systemId, now);
    StreamsUntouched(o, LogsOf(o, h[..|h| - 1]), h[|h| - 1].input);
  }

  lemma StreamsUntouched(o: Options, l: Logs, p: PollInput)
    ensures PollLogs(o, l, p).streams == Monitored(Received(o, l, p), p.now).streams
  {
  }

  // --- Start requests ---

  /** Permitted and configured, the last heartbeat at most 3 s old and disarmed, and
      both machines done. */
  ghost predicate Startable(o: Options, l: Logs, at: Time) {
    && o.motionAllowed && o.startup.enabled && o.runtime.enabled
    && VR.Connected(l.vehicle, at) && VR.Last(l.vehicle, VR.IsBeat).value.baseMode / 128 % 2 == 0
    && (S.Run(o.startup, l.startup).phase == S.Completed || S.Run(o.startup, l.startup).phase == S.Failed)
    && (A.Run(o.runtime, l.runtime).phase == A.Completed || A.Run(o.runtime, l.runtime).phase == A.Failed)
  }

  lemma StartIsAllowed(o: Options, l: Logs, at: Time)
    requires Timely(l, at)
    ensures MayStart(o, l, at) <==> Startable(o, l, at)
  {
    VR.SnapshotShows(l.vehicle, at);
  }

  /** In every run a start request is granted exactly then; it puts both machines back
      to waiting with nothing remembered, and otherwise changes neither. */
  lemma {:induction false} StartIsGranted(o: Options, h: seq<Event>, at: Time)
    requires Clock(h) && (h != [] ==> TimeOf(h[|h| - 1]) <= at)
    ensures var (l, l', granted) :=
              (LogsOf(o, h), LogsOf(o, h + [Start(at)]), Restarted(o, WorldOf(o, LogsOf(o, h)), at).1);
            && (granted <==> Startable(o, l, at))
            && S.Run(o.startup, l'.startup) == (
                 if granted then S.Startup(S.WaitingForVehicle, None, 0, false, false, 0, 0, None)
                 else S.Run(o.startup, l.startup))
            && A.Run(o.runtime, l'.runtime) == (
                 if granted then
                   A.Runtime(A.WaitingForStartup, Guidance.NoIntent, None, None, None, 0, 0, 0, 0, false, false, None)
                 else A.Run(o.runtime, l.runtime))
  {
    var l := LogsOf(o, h);
    assert (h + [Start(at)])[..|h|] == h;
    LogsAreTimely(o, h, at);
    StartIsAllowed(o, l, at);
    RestartTracks(o, l, at);
    StartupSnoc(o.startup, l.startup, S.Restart(at));
    RuntimeSnoc(o.runtime, l.runtime, A.Restart(at));
  }
}
