/** A run in which a startup command misses the vehicle its parameters were read
    from: the first heartbeat is system 1's, everything after it system 2's. */
module HandoverWitness {
  import opened FlightTypes
  import opened Application
  import A = Autonomy
  import F = LinkFailsafe
  import K = Tracking
  import R = ApplicationRuns
  import S = FlightStartup
  import T = TelemetryStreams
  import V = VehicleStates
  import Trace = CommandTrace

  const ALL_WRITTEN := Writes(true, true, true, true, true, true, true, true)

  function Hearing(messages: seq<Message>): PollInput { PollInput(None, 0, messages, 0, ALL_WRITTEN) }

  function Sent(es: seq<V.Event>): (ms: seq<Message>)
    ensures |ms| == |es|
  {
    seq(|es|, k requires 0 <= k < |es| => Telemetry(es[k]))
  }

  const GREETING := Telemetry(V.Heartbeat(1, 1, 2, S.ARDUPILOT, 0, 0, 0))

  const REPORTS: seq<V.Event> := [
    V.Heartbeat(2, 1, 2, S.ARDUPILOT, 0, 0, 0),
    V.Gps(3, 0),
    V.GlobalPosition(0, 0),
    V.ArmingVoltage(Num(0.0), 0),
    V.SystemStatus(V.BATTERY_SENSOR, V.BATTERY_SENSOR, Some(12.0), None, None, 0)]

  const ANSWERS: seq<Message> := [
    Parameter(2, 1, F.GCS_ENABLE, Num(5.0)),
    Parameter(2, 1, F.GCS_TIMEOUT, Num(5.0)),
    Parameter(2, 1, F.FAILSAFE_OPTIONS, Num(0.0)),
    Parameter(2, 1, F.MY_GCS, Num(2.0))]

  const APPROVAL := CommandAck(SET_MESSAGE_INTERVAL, RESULT_ACCEPTED, 2, 0, 0)

  /** The two vehicles are heard, the parameters read, and the streams acknowledged one by one. */
  function Input(n: nat): PollInput {
    Hearing(if n == 0 then [GREETING] else if n == 1 then Sent(REPORTS) else if n == 2 then ANSWERS else [APPROVAL])
  }

  function Handover(n: nat): (h: seq<Event>)
    ensures |h| == n && (n > 0 ==> h[n - 1] == Poll(Input(n - 1)))
  {
    if n == 0 then [] else Handover(n - 1) + [Poll(Input(n - 1))]
  }

  // --- The states on the way ---

  const GREETED :=
    V.State(V.Link(Some(0), Some(1), Some(1), false, Some(2), Some(S.ARDUPILOT), Some(0), false),
            V.INITIAL.readings, [])

  const REPORTED :=
    V.State(V.Link(Some(0), Some(2), Some(1), false, Some(2), Some(S.ARDUPILOT), Some(0), false),
            V.Readings(Some(0), Some(0), Some(0), Some(0), Some(3), Some(0.0), Some(12.0), None, Some(Num(0.0)),
                       V.BATTERY_SENSOR, V.BATTERY_SENSOR), [])

  const POLICY := F.Raw(Some(Num(5.0)), Some(Num(5.0)), Some(Num(0.0)), Some(Num(2.0)))

  function Configuring(id: Byte, k: nat): T.Setup {
    T.Begin(id).(current := k, completed := k, attempt := 1, awaitingAck := true, ackDeadline := Trace.ACK_TIMEOUT)
  }

  /** The startup has been pinned to system 1 and waits for readiness. */
  function Facing(o: Options, vehicle: V.State, id: Byte, raw: F.Raw, k: nat): World {
    World(vehicle, F.Cache(Some(id), raw), Configuring(id, k),
          S.Enter(S.Initial(o.startup).(systemId := Some(1)), S.WaitingForReadiness, 0), A.Initial(o.runtime), K.EMPTY)
  }

  function After(o: Options, n: nat): World {
    if n == 0 then Beginning(o)
    else if n == 1 then Facing(o, GREETED, 1, F.EMPTY, 0)
    else if n == 2 then Facing(o, REPORTED, 2, F.EMPTY, 0)
    else Facing(o, REPORTED, 2, POLICY, n - 3)
  }

  lemma {:induction false} LogsSnoc(o: Options, h: seq<Event>, p: PollInput)
    ensures LogsOf(o, h + [Poll(p)]) == PollLogs(o, LogsOf(o, h), p)
    ensures WorldOf(o, LogsOf(o, h + [Poll(p)])) == PollWorld(o, WorldOf(o, LogsOf(o, h)), p).0
    ensures R.SentAt(o, h + [Poll(p)]) == PollWorld(o, WorldOf(o, LogsOf(o, h)), p).1
  {
    assert (h + [Poll(p)])[..|h|] == h;
    PollTracks(o, LogsOf(o, h), p);
  }

  lemma TellSnoc(w: World, ms: seq<Message>, m: Message)
    requires Sound(w)
    ensures TellAll(w, ms + [m], 0) == Tell(TellAll(w, ms, 0), m, 0)
  {
    assert (ms + [m])[..|ms|] == ms;
  }

  lemma {:induction false} TellTelemetry(w: World, es: seq<V.Event>)
    requires Sound(w) && forall e :: e in es ==> !e.Look? && e.at == 0
    ensures TellAll(w, Sent(es), 0) == w.(vehicle := V.Run(w.vehicle, es))
  {
    if es != [] {
      var n := |es| - 1;
      assert forall e :: e in es[..n] ==> e in es;
      TellTelemetry(w, es[..n]);
      assert es[n] in es && Sent(es) == Sent(es[..n]) + [Telemetry(es[n])];
      TellSnoc(w, Sent(es[..n]), Telemetry(es[n]));
    }
  }

  lemma ReportsAddUp()
    ensures V.Run(GREETED, REPORTS) == REPORTED
  {
    var es := REPORTS;
    assert es[..1][..0] == [] && es[..2][..1] == es[..1] && es[..3][..2] == es[..2];
    assert es[..4][..3] == es[..3] && es[..5] == es && es[..5][..4] == es[..4];
    assert V.Run(GREETED, es[..1]) == V.Step(GREETED, es[0]);
    assert V.Run(GREETED, es[..2]) == V.Step(V.Run(GREETED, es[..1]), es[1]);
    assert V.Run(GREETED, es[..3]) == V.Step(V.Run(GREETED, es[..2]), es[2]);
    assert V.Run(GREETED, es[..4]) == V.Step(V.Run(GREETED, es[..3]), es[3]);
  }

  lemma {:induction false} TellReports(w: World)
    requires Sound(w) && w.vehicle == GREETED
    ensures TellAll(w, Sent(REPORTS), 0) == w.(vehicle := REPORTED)
  {
    TellTelemetry(w, REPORTS);
    ReportsAddUp();
  }

  lemma {:induction false} TellAnswers(w: World)
    requires Sound(w) && w.failsafe == F.Cache(Some(2), F.EMPTY)
    ensures TellAll(w, ANSWERS, 0) == w.(failsafe := F.Cache(Some(2), POLICY))
  {
    var m := ANSWERS;
    TellSnoc(w, [], m[0]);
    TellSnoc(w, [m[0]], m[1]);
    TellSnoc(w, [m[0], m[1]], m[2]);
    TellSnoc(w, [m[0], m[1], m[2]], m[3]);
    assert [] + [m[0]] == [m[0]] && [m[0]] + [m[1]] == [m[0], m[1]];
    assert [m[0], m[1]] + [m[2]] == [m[0], m[1], m[2]] && [m[0], m[1], m[2]] + [m[3]] == m;
  }

  lemma TellOne(w: World, m: Message)
    requires Sound(w)
    ensures TellAll(w, [m], 0) == Tell(w, m, 0)
  {
    TellSnoc(w, [], m);
    assert [] + [m] == [m];
  }

  /** What the polls see of each vehicle: system 1 has said nothing but hello. */
  lemma Sights()
    ensures var v := V.SnapshotOf(GREETED, 0); v.connected && v.systemId == Some(1) && !v.armable
    ensures V.SnapshotOf(GREETED, 0).vehicleType == Some(2)
            && V.SnapshotOf(GREETED, 0).autopilotType == Some(S.ARDUPILOT)
    ensures var v := V.SnapshotOf(REPORTED, 0);
            v.connected && v.systemId == Some(2) && v.armable && !v.armed && v.relativeAltitude == Some(0.0)
    ensures V.Step(GREETED, V.Look(0)) == GREETED && V.Step(REPORTED, V.Look(0)) == REPORTED
  {
  }

  /** A poll in which the startup waits on. */
  lemma Idle(o: Options, vehicle: V.State, id: Byte, raw: F.Raw, k: nat, heard: World)
    requires o.startup.enabled && o.runtime.enabled && k < T.STREAMS
    requires V.SnapshotOf(vehicle, 0).connected && V.SnapshotOf(vehicle, 0).systemId == Some(id)
    requires V.Step(vehicle, V.Look(0)) == vehicle
    requires Sound(heard) && heard == Facing(o, vehicle, id, raw, k).(streams := heard.streams)
    requires T.Update(heard.streams, true, Some(id), 0).0 == Configuring(id, k)
    ensures Serve(o, Look(heard, 0), V.SnapshotOf(vehicle, 0), 0, ALL_WRITTEN, true) ==
            (Facing(o, vehicle, id, raw, k), Sending(None, A.NOTHING))
  {
  }

  lemma Pinned(cfg: S.Config, v: Vehicle, ready: bool, accepted: bool)
    requires cfg.enabled && v == V.SnapshotOf(GREETED, 0)
    ensures S.Update(cfg, S.Initial(cfg), S.Input(v, ready, accepted, 0)) ==
            (S.Enter(S.Initial(cfg).(systemId := Some(1)), S.WaitingForReadiness, 0), None)
  {
    Sights();
  }

  lemma GreetingIsHeard(o: Options)
    ensures Heard(o, Beginning(o), Hearing([GREETING])) == Beginning(o).(vehicle := GREETED)
    ensures Watch(Beginning(o).(vehicle := GREETED), V.SnapshotOf(GREETED, 0), 0) ==
            Beginning(o).(vehicle := GREETED, failsafe := F.Cache(Some(1), F.EMPTY), streams := Configuring(1, 0))
  {
    TellOne(Beginning(o), GREETING);
    Sights();
  }

  lemma Greeted(o: Options)
    requires WellFormed(o) && o.startup.enabled
    ensures PollWorld(o, Beginning(o), Hearing([GREETING])).0 == Facing(o, GREETED, 1, F.EMPTY, 0)
  {
    GreetingIsHeard(o);
    Sights();
    var w := Beginning(o).(vehicle := GREETED);
    assert Look(w, 0) == w;
    Pinned(o.startup, V.SnapshotOf(GREETED, 0), false, F.Accepts(F.Cache(Some(1), F.EMPTY)));
  }

  lemma Reported(o: Options)
    requires WellFormed(o) && o.startup.enabled
    ensures PollWorld(o, Facing(o, GREETED, 1, F.EMPTY, 0), Hearing(Sent(REPORTS))).0 ==
            Facing(o, REPORTED, 2, F.EMPTY, 0)
  {
    var w := Facing(o, GREETED, 1, F.EMPTY, 0);
    TellReports(w);
    Sights();
    assert Heard(o, w, Hearing(Sent(REPORTS))) == w.(vehicle := REPORTED);
  }

  lemma Answered(o: Options)
    requires WellFormed(o) && o.startup.enabled
    ensures PollWorld(o, Facing(o, REPORTED, 2, F.EMPTY, 0), Hearing(ANSWERS)).0 == Facing(o, REPORTED, 2, POLICY, 0)
  {
    var w := Facing(o, REPORTED, 2, F.EMPTY, 0);
    TellAnswers(w);
    Sights();
    Idle(o, REPORTED, 2, POLICY, 0, w.(failsafe := F.Cache(Some(2), POLICY)));
  }

  lemma Approved(o: Options, k: nat)
    requires WellFormed(o) && o.startup.enabled && k + 1 < T.STREAMS
    ensures PollWorld(o, Facing(o, REPORTED, 2, POLICY, k), Hearing([APPROVAL])).0 ==
            Facing(o, REPORTED, 2, POLICY, k + 1)
  {
    var w := Facing(o, REPORTED, 2, POLICY, k);
    TellOne(w, APPROVAL);
    Sights();
    Idle(o, REPORTED, 2, POLICY, k + 1, Tell(w, APPROVAL, 0));
  }

  lemma PollGoes(o: Options, n: nat)
    requires WellFormed(o) && o.startup.enabled && n < T.STREAMS + 2
    ensures PollWorld(o, After(o, n), Input(n)).0 == After(o, n + 1)
  {
    match n
    case 0 => Greeted(o);
    case 1 => Reported(o);
    case 2 => Answered(o);
    case _ => Approved(o, n - 3);
  }

  lemma {:induction false} HandoverGoes(o: Options, n: nat)
    requires WellFormed(o) && o.startup.enabled && n <= T.STREAMS + 2
    ensures WorldOf(o, LogsOf(o, Handover(n))) == After(o, n)
  {
    if n == 0 {
      assert LogsOf(o, []) == SILENCE;
    } else {
      HandoverGoes(o, n - 1);
      LogsSnoc(o, Handover(n - 1), Input(n - 1));
      PollGoes(o, n - 1);
    }
  }

  lemma Commanded(o: Options)
    requires WellFormed(o) && o.startup.enabled
    ensures var (w, sent) := PollWorld(o, Facing(o, REPORTED, 2, POLICY, T.STREAMS - 1), Hearing([APPROVAL]));
            sent.command == Some(CommandRequest(SetGuidedMode, 1, 0, 0.0)) && w.failsafe == F.Cache(Some(2), POLICY)
  {
    var w := Facing(o, REPORTED, 2, POLICY, T.STREAMS - 1);
    TellOne(w, APPROVAL);
    Sights();
    PolicyIsMet();
    var v := V.SnapshotOf(REPORTED, 0);
    var watched := Watch(Look(Tell(w, APPROVAL, 0), 0), v, 0);
    assert watched.streams.phase == T.Running && watched.failsafe == F.Cache(Some(2), POLICY);
    assert watched.startup == w.startup;
    Cleared(o.startup, w.startup, S.Input(v, true, true, 0));
  }

  lemma PolicyIsMet()
    ensures F.Accepts(F.Cache(Some(2), POLICY))
  {
    assert POLICY.timeout == Some(Num(5.0)) && POLICY.options == Some(Num(0 as real));
    assert !F.Continues(0);
  }

  lemma Cleared(cfg: S.Config, s: S.Startup, i: S.Input)
    requires s == S.Enter(S.Initial(cfg).(systemId := Some(1)), S.WaitingForReadiness, 0)
    requires i.vehicle.connected && S.Ready(s, i) && i.now == 0
    ensures S.Update(cfg, s, i).1 == Some(CommandRequest(SetGuidedMode, 1, 0, 0.0))
  {
    S.SettledAfterTwo(s, i);
  }

  /** GUIDED goes to system 1 although system 2 is the vehicle in sight and the
      one whose failsafe parameters were accepted. */
  lemma {:induction false} CommandMissesTheSession(o: Options)
    requires WellFormed(o) && o.startup.enabled
    ensures var h := Handover(T.STREAMS + 3);
            && R.SentAt(o, h).command == Some(CommandRequest(SetGuidedMode, 1, 0, 0.0))
            && F.Session(LogsOf(o, h).failsafe) == Some(2) && LinkAccepted(LogsOf(o, h))
  {
    var n := T.STREAMS + 2;
    HandoverGoes(o, n);
    Commanded(o);
    LogsSnoc(o, Handover(n), Input(n));
    F.CacheIsLatest(LogsOf(o, Handover(n + 1)).failsafe);
    PolicyIsMet();
  }
}
