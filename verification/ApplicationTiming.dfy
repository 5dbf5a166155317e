/** Clocks, pacing and the heartbeat over every run of the application. */
module ApplicationTiming {
  import opened FlightTypes
  import opened Application
  import A = Autonomy
  import F = LinkFailsafe
  import H = AutonomyHistory
  import R = ApplicationRuns
  import S = FlightStartup
  import T = TelemetryStreams
  import V = VehicleStates
  import Trace = CommandTrace

  function TimeOf(e: Event): Time { if e.Poll? then e.input.now else e.at }

  predicate Clock(h: seq<Event>) {
    forall i, j :: 0 <= i < j < |h| ==> TimeOf(h[i]) <= TimeOf(h[j])
  }

  // --- Every component sees time go forward ---

  ghost predicate Timely(l: Logs, now: Time) {
    && S.Monotone(l.startup) && (forall k :: 0 <= k < |l.startup| ==> S.At(l.startup[k]) <= now)
    && A.Monotone(l.runtime) && (forall k :: 0 <= k < |l.runtime| ==> A.At(l.runtime[k]) <= now)
    && T.Monotone(l.streams) && (forall k :: 0 <= k < |l.streams| ==> l.streams[k].at <= now)
    && V.Monotone(l.vehicle) && (forall k :: 0 <= k < |l.vehicle| ==> l.vehicle[k].at <= now)
  }

  lemma MessageIsTimely(l: Logs, m: Message, now: Time)
    requires Timely(l, now)
    ensures Timely(OnMessage(l, m, now), now)
  {
    if m.Telemetry? {
      assert Stamp(m.event, now).at == now;
    }
  }

  lemma {:induction false} MessagesAreTimely(l: Logs, ms: seq<Message>, now: Time)
    requires Timely(l, now)
    ensures Timely(OnMessages(l, ms, now), now)
  {
    if ms != [] {
      MessagesAreTimely(l, ms[..|ms| - 1], now);
      MessageIsTimely(OnMessages(l, ms[..|ms| - 1], now), ms[|ms| - 1], now);
    }
  }

  lemma MonitoredIsTimely(l: Logs, l': Logs, now: Time)
    requires Timely(l, now)
    requires l'.startup == l.startup && l'.runtime == l.runtime
    requires |l'.vehicle| == |l.vehicle| + 1 && l'.vehicle == l.vehicle + [V.Look(now)]
    requires l'.streams == l.streams || (exists c, id :: l'.streams == l.streams + [T.Poll(c, id, now)])
    ensures Timely(l', now)
  {
  }

  lemma LookedIsTimely(l: Logs, now: Time)
    requires Timely(l, now)
    ensures Timely(Looked(l, now), now)
  {
    MonitoredIsTimely(l, Looked(l, now), now);
  }

  lemma FlownIsTimely(l: Logs, l': Logs, se: S.Event, re: A.Event, now: Time)
    requires Timely(l, now) && S.At(se) == now && A.At(re) == now
    requires l'.startup == l.startup + [se] && l'.runtime == l.runtime + [re]
    requires l'.vehicle == l.vehicle && l'.streams == l.streams
    ensures Timely(l', now)
  {
  }

  lemma PollIsTimely(o: Options, l: Logs, p: PollInput)
    requires Timely(l, p.now)
    ensures Timely(PollLogs(o, l, p), p.now)
  {
    MessagesAreTimely(OnFrame(o, l, p), p.messages, p.now);
    var heard := Received(o, l, p);
    var (seen, v) := (Monitored(heard, p.now), VehicleAt(heard, p.now));
    MonitoredIsTimely(heard, seen, p.now);
    var polled := StartupPolled(seen, v, p);
    FlownIsTimely(seen, Flown(o, seen, v, p), S.Poll(StartupInput(seen, v, p.now), p.writes.startup),
                  A.Poll(RuntimeInput(o, polled, v, p.now), p.writes.target, p.writes.land), p.now);
  }

  lemma StartIsTimely(o: Options, l: Logs, now: Time)
    requires Timely(l, now)
    ensures Timely(StartLogs(o, l, now), now)
  {
    var looked := Looked(l, now);
    MonitoredIsTimely(l, looked, now);
    FlownIsTimely(looked, looked.(startup := l.startup + [S.Restart(now)], runtime := l.runtime + [A.Restart(now)]),
                  S.Restart(now), A.Restart(now), now);
  }

  lemma StepIsTimely(o: Options, l: Logs, e: Event)
    requires Timely(l, TimeOf(e))
    ensures Timely(StepLogs(o, l, e), TimeOf(e))
  {
    match e
    case Poll(p) => PollIsTimely(o, l, p);
    case Start(at) => StartIsTimely(o, l, at);
    case Snapshot(at) => LookedIsTimely(l, at);
  }

  lemma Later(l: Logs, now: Time, later: Time)
    requires Timely(l, now) && now <= later
    ensures Timely(l, later)
  {
  }

  lemma {:induction false} LogsAreTimely(o: Options, h: seq<Event>, now: Time)
    requires Clock(h) && (h != [] ==> TimeOf(h[|h| - 1]) <= now)
    ensures Timely(LogsOf(o, h), now)
  {
    if h != [] {
      var (front, e) := (h[..|h| - 1], h[|h| - 1]);
      LogsAreTimely(o, front, TimeOf(e));
      StepIsTimely(o, LogsOf(o, front), e);
      Later(LogsOf(o, h), TimeOf(e), now);
    }
  }

  predicate LandsAreSpaced(lands: seq<Trace.Sent>) {
    && |lands| <= 3
    && (forall k :: 0 <= k < |lands| ==> lands[k].confirmation == k)
    && (forall k :: 0 < k < |lands| ==> lands[k - 1].delivered ==> lands[k].at >= lands[k - 1].at + 2_000_000_000)
  }

  /** In every run the commands of a flight spell the startup language, its LANDs
      count 0, 1, 2 at least two seconds apart unless a write failed, and the
      telemetry requests of a session keep their own discipline. */
  lemma {:induction false} EveryRunSpeaksTheProtocol(o: Options, h: seq<Event>)
    requires Clock(h)
    ensures var l := LogsOf(o, h);
            && Trace.Disciplined(S.Trace(o.startup, l.startup)) && |S.Trace(o.startup, l.startup)| <= 9
            && LandsAreSpaced(A.Trace(o.runtime, l.runtime))
            && Trace.Disciplined(T.Log(l.streams).sent) && T.Interleaved(T.Log(l.streams))
  {
    var now := if h == [] then 0 else TimeOf(h[|h| - 1]);
    LogsAreTimely(o, h, now);
    var l := LogsOf(o, h);
    S.StartupLanguage(o.startup, l.startup);
    A.LandLanguage(o.runtime, l.runtime);
    T.SetupLanguage(l.streams);
  }

  /** A completed flight rests on the startup's nine milestones and the landing's
      three, in one and the same application run. */
  lemma {:induction false} CompletedFlightIsEarned(o: Options, h: seq<Event>)
    requires WellFormed(o) && R.RuntimePhase(o, LogsOf(o, h)) == A.Completed
    ensures var l := LogsOf(o, h);
            && S.Run(o.startup, l.startup).systemId.Some?
            && (exists marks: seq<nat> :: |marks| == 9 &&
                  S.Chain(o.startup, l.startup, marks, S.Run(o.startup, l.startup).systemId.value))
            && (exists marks: seq<nat> :: |marks| == 3 && H.Chain(o.runtime, l.runtime, marks))
  {
    R.CoupledAlways(o, h);
    S.CompletedIsConfirmed(o.startup, LogsOf(o, h).startup);
    H.CompletedIsLanded(o.runtime, LogsOf(o, h).runtime);
  }

  // --- Pacing ---

  function LastPoll(h: seq<Event>): Option<Time> {
    if h == [] then None else if h[|h| - 1].Poll? then Some(TimeOf(h[|h| - 1])) else LastPoll(h[..|h| - 1])
  }

  /** Consecutive polls are at most delta apart. */
  predicate Paced(h: seq<Event>, delta: Time) {
    h != [] ==>
      var (front, e) := (h[..|h| - 1], h[|h| - 1]);
      Paced(front, delta) && (e.Poll? && LastPoll(front).Some? ==> TimeOf(e) <= LastPoll(front).value + delta)
  }

  lemma {:induction false} MessagesKeepPace(l: Logs, ms: seq<Message>, now: Time, delta: Time)
    requires S.Paced(l.startup, delta)
    ensures S.Paced(OnMessages(l, ms, now).startup, delta)
    ensures S.LastPoll(OnMessages(l, ms, now).startup) == S.LastPoll(l.startup)
  {
    if ms != [] {
      var before := OnMessages(l, ms[..|ms| - 1], now);
      MessagesKeepPace(l, ms[..|ms| - 1], now, delta);
      R.MessageAddsOneAck(before, ms[|ms| - 1], now);
      StartupGrows(before.startup, OnMessages(l, ms, now).startup, delta);
    }
  }

  lemma {:induction false} StartupGrows(es: seq<S.Event>, es': seq<S.Event>, delta: Time)
    requires S.Paced(es, delta)
    requires es' == es || (|es'| == |es| + 1 && es' == es + [es'[|es|]])
    requires es' != es && es'[|es|].Poll? && S.LastPoll(es).Some? ==> S.At(es'[|es|]) <= S.LastPoll(es).value + delta
    ensures S.Paced(es', delta)
    ensures S.LastPoll(es') == if es' != es && es'[|es|].Poll? then Some(S.At(es'[|es|])) else S.LastPoll(es)
  {
    if es' != es {
      assert es'[..|es'| - 1] == es;
    }
  }

  lemma {:induction false} PollKeepsPace(o: Options, l: Logs, p: PollInput, delta: Time)
    requires S.Paced(l.startup, delta)
    requires S.LastPoll(l.startup).Some? ==> p.now <= S.LastPoll(l.startup).value + delta
    ensures S.Paced(PollLogs(o, l, p).startup, delta)
    ensures S.LastPoll(PollLogs(o, l, p).startup) == Some(p.now)
  {
    MessagesKeepPace(OnFrame(o, l, p), p.messages, p.now, delta);
    var heard := Received(o, l, p);
    var seen := Monitored(heard, p.now);
    StartupGrows(seen.startup, PollLogs(o, l, p).startup, delta);
  }

  lemma {:induction false} StartupIsPaced(o: Options, h: seq<Event>, delta: Time)
    requires Paced(h, delta)
    ensures S.Paced(LogsOf(o, h).startup, delta) && S.LastPoll(LogsOf(o, h).startup) == LastPoll(h)
  {
    if h != [] {
      var (front, e) := (h[..|h| - 1], h[|h| - 1]);
      StartupIsPaced(o, front, delta);
      match e
      case Poll(p) => PollKeepsPace(o, LogsOf(o, front), p, delta);
      case Start(at) => StartupGrows(LogsOf(o, front).startup, LogsOf(o, h).startup, delta);
      case Snapshot(_) =>
    }
  }

  /** With polls at most delta apart a startup that left waiting is over, one way
      or the other, in any poll at least 155 s + 2 delta later. */
  lemma {:induction false} StartupEndsInTime(o: Options, h: seq<Event>, delta: Time)
    requires delta >= 0 && Paced(h, delta) && h != [] && h[|h| - 1].Poll?
    requires var left := S.Departure(o.startup, LogsOf(o, h).startup);
             left.Some? && TimeOf(h[|h| - 1]) >= left.value + 155_000_000_000 + 2 * delta
    ensures S.Terminal(R.StartupPhase(o, LogsOf(o, h)))
  {
    StartupIsPaced(o, h, delta);
    PollEndsWithUpdate(o, LogsOf(o, h[..|h| - 1]), h[|h| - 1].input);
    S.StartupTerminates(o.startup, LogsOf(o, h).startup, delta);
  }

  lemma PollEndsWithUpdate(o: Options, l: Logs, p: PollInput)
    ensures var es := PollLogs(o, l, p).startup;
            es != [] && es[|es| - 1].Poll? && S.At(es[|es| - 1]) == p.now
  {
  }

  // --- The heartbeat ---

  /** When the next heartbeat is due: a matter of poll times alone. */
  function NextBeat(h: seq<Event>): Time {
    if h == [] then 0
    else
      var (next, e) := (NextBeat(h[..|h| - 1]), h[|h| - 1]);
      if e.Poll? && TimeOf(e) >= next then TimeOf(e) + 1_000_000_000 else next
  }

  /** The times of the polls in which it was due. */
  function Beats(h: seq<Event>): seq<Time> {
    if h == [] then []
    else
      var (front, e) := (h[..|h| - 1], h[|h| - 1]);
      if e.Poll? && TimeOf(e) >= NextBeat(front) then Beats(front) + [TimeOf(e)] else Beats(front)
  }

  /** The application's timers after a run. */
  ghost function ScheduleOf(o: Options, h: seq<Event>): Schedule {
    if h == [] then UNSCHEDULED
    else
      var (front, e) := (h[..|h| - 1], h[|h| - 1]);
      if e.Poll? then AttendedPoll(o, ScheduleOf(o, front), LogsOf(o, front), e.input) else ScheduleOf(o, front)
  }

  ghost function AttendedPoll(o: Options, s: Schedule, l: Logs, p: PollInput): Schedule {
    var heard := Received(o, l, p);
    Attended(s, Look(WorldOf(o, heard), p.now), VehicleAt(heard, p.now), p.now, p.writes.heartbeat)
  }

  lemma AttendedBeat(s: Schedule, looked: World, v: Vehicle, now: Time, sent: bool)
    requires Sound(looked)
    ensures Attended(s, looked, v, now, sent).nextHeartbeat ==
            if BeatDue(s, now) then now + 1_000_000_000 else s.nextHeartbeat
  {
  }

  /** The application's heartbeat timer is the one read off the poll times: losing
      or regaining the vehicle, or a failed write, never shifts it. */
  lemma {:induction false} BeatsAreUnconditional(o: Options, h: seq<Event>)
    ensures ScheduleOf(o, h).nextHeartbeat == NextBeat(h)
  {
    if h != [] {
      var (front, e) := (h[..|h| - 1], h[|h| - 1]);
      BeatsAreUnconditional(o, front);
      if e.Poll? {
        var heard := Received(o, LogsOf(o, front), e.input);
        AttendedBeat(ScheduleOf(o, front), Look(WorldOf(o, heard), e.input.now),
                     VehicleAt(heard, e.input.now), e.input.now,
                     e.input.writes.heartbeat);
      }
    }
  }

  // --- The heartbeat reaches the vehicle in time ---

  ghost predicate Regular(beats: seq<Time>, next: Time, polled: Option<Time>, delta: Time) {
    && (forall i, j :: 0 <= i < j < |beats| && j == i + 1 ==>
          1_000_000_000 <= beats[j] - beats[i] && beats[j] - beats[i] < 1_000_000_000 + delta)
    && (beats != [] ==>
          next == beats[|beats| - 1] + 1_000_000_000 && polled.Some? && polled.value < next)
  }

  /** With polls at most delta apart successive heartbeats are due at least 1 s and
      less than 1 s + delta apart, and the next is never overdue after a poll. */
  lemma {:induction false} BeatsAreRegular(h: seq<Event>, delta: Time)
    requires delta > 0 && Paced(h, delta)
    ensures Regular(Beats(h), NextBeat(h), LastPoll(h), delta)
  {
    if h != [] {
      BeatsAreRegular(h[..|h| - 1], delta);
    }
  }

  /** The heartbeats that got out in the polls from position a on. */
  ghost function SentBeats(o: Options, h: seq<Event>, a: nat): seq<Time> {
    if |h| <= a then []
    else
      var (front, e) := (h[..|h| - 1], h[|h| - 1]);
      if e.Poll? && TimeOf(e) >= NextBeat(front) && LiveAt(o, front, e.input)
      then SentBeats(o, front, a) + [TimeOf(e)] else SentBeats(o, front, a)
  }

  /** The poll sees a connected vehicle and its heartbeat write, if any, succeeds. */
  ghost predicate LiveAt(o: Options, front: seq<Event>, p: PollInput) {
    var v := VehicleAt(Received(o, LogsOf(o, front), p), p.now);
    v.connected && v.systemId.Some? && p.writes.heartbeat
  }

  ghost predicate LiveFrom(o: Options, h: seq<Event>, a: nat) {
    |h| > a ==>
      LiveFrom(o, h[..|h| - 1], a) && (h[|h| - 1].Poll? ==> LiveAt(o, h[..|h| - 1], h[|h| - 1].input))
  }

  /** Poll i has sent a heartbeat, and it and all later polls have seen the vehicle connected. */
  ghost predicate BeatLives(o: Options, h: seq<Event>, i: nat) {
    && i < |h| && h[i].Poll? && TimeOf(h[i]) >= NextBeat(h[..i]) && LiveAt(o, h[..i], h[i].input)
    && forall j :: i <= j < |h| && h[j].Poll? ==> ConnectedAt(o, h[..j], h[j].input)
  }

  ghost predicate ConnectedAt(o: Options, front: seq<Event>, p: PollInput) {
    VehicleAt(Received(o, LogsOf(o, front), p), p.now).connected
  }

  lemma AttendedActivity(s: Schedule, looked: World, v: Vehicle, now: Time, sent: bool)
    requires Sound(looked)
    ensures Attended(s, looked, v, now, sent).heartbeatActive <==>
            v.connected && (s.heartbeatActive || (now >= s.nextHeartbeat && v.systemId.Some? && sent))
  {
  }

  ghost predicate BeatsIn(o: Options, front: seq<Event>, e: Event) {
    e.Poll? && TimeOf(e) >= NextBeat(front) && LiveAt(o, front, e.input)
  }

  ghost predicate StaysUp(o: Options, front: seq<Event>, e: Event) { e.Poll? ==> ConnectedAt(o, front, e.input) }

  lemma BeatLivesSnoc(o: Options, front: seq<Event>, e: Event, i: nat)
    ensures BeatLives(o, front + [e], i) <==>
            if i < |front| then BeatLives(o, front, i) && StaysUp(o, front, e) else i == |front| && BeatsIn(o, front, e)
  {
    var h := front + [e];
    assert h[..|front|] == front && h[|front|] == e;
    assert forall j :: 0 <= j < |front| ==> h[..j] == front[..j] && h[j] == front[j];
  }

  lemma {:induction false} PollShowsHeartbeat(o: Options, front: seq<Event>, e: Event)
    requires e.Poll?
    ensures AttendedPoll(o, ScheduleOf(o, front), LogsOf(o, front), e.input).heartbeatActive <==>
            StaysUp(o, front, e) && (ScheduleOf(o, front).heartbeatActive || BeatsIn(o, front, e))
  {
    BeatsAreUnconditional(o, front);
    var (heard, p) := (Received(o, LogsOf(o, front), e.input), e.input);
    AttendedActivity(ScheduleOf(o, front), Look(WorldOf(o, heard), p.now), VehicleAt(heard, p.now), p.now,
                     p.writes.heartbeat);
  }

  /** The heartbeat is shown as active exactly if one was sent and the vehicle has been
      connected in every poll since. */
  lemma {:induction false} HeartbeatIsShown(o: Options, h: seq<Event>)
    ensures ScheduleOf(o, h).heartbeatActive <==> exists i: nat :: BeatLives(o, h, i)
  {
    if h != [] {
      var (front, e) := (h[..|h| - 1], h[|h| - 1]);
      HeartbeatIsShown(o, front);
      assert h == front + [e];
      forall i: nat
        ensures BeatLives(o, h, i) <==>
                if i < |front| then BeatLives(o, front, i) && StaysUp(o, front, e)
                else i == |front| && BeatsIn(o, front, e)
      {
        BeatLivesSnoc(o, front, e, i);
      }
      if e.Poll? { PollShowsHeartbeat(o, front, e); }
      if ScheduleOf(o, front).heartbeatActive && StaysUp(o, front, e) {
        var i: nat :| BeatLives(o, front, i);
        assert BeatLives(o, h, i);
      }
      if BeatsIn(o, front, e) { assert BeatLives(o, h, |front|); }
    }
  }

  /** How many beats were due before position a. */
  function BeatsBefore(h: seq<Event>, a: nat): (m: nat)
    ensures m <= |Beats(h)|
  {
    if |h| <= a then |Beats(h)| else BeatsBefore(h[..|h| - 1], a)
  }

  lemma {:induction false} BeatsAreSent(o: Options, h: seq<Event>, a: nat)
    requires LiveFrom(o, h, a)
    ensures SentBeats(o, h, a) == Beats(h)[BeatsBefore(h, a)..]
  {
    if |h| > a {
      BeatsAreSent(o, h[..|h| - 1], a);
    }
  }

  lemma RegularSuffix(beats: seq<Time>, next: Time, polled: Option<Time>, delta: Time, m: nat, sent: seq<Time>, i: nat)
    requires Regular(beats, next, polled, delta) && m <= |beats| && sent == beats[m..] && i + 1 < |sent|
    ensures 1_000_000_000 <= sent[i + 1] - sent[i] < 1_000_000_000 + delta
  {
    var j := m + i;
    assert sent[i] == beats[j] && sent[i + 1] == beats[j + 1];
  }

  /** On a link that stays up from position a on, with successful writes and polls
      at most delta apart, the vehicle gets its heartbeats 1 s to 1 s + delta apart. */
  lemma HeartbeatsArrive(o: Options, h: seq<Event>, a: nat, delta: Time, i: nat)
    requires delta > 0 && Paced(h, delta) && LiveFrom(o, h, a) && i + 1 < |SentBeats(o, h, a)|
    ensures var sent := SentBeats(o, h, a);
            1_000_000_000 <= sent[i + 1] - sent[i] < 1_000_000_000 + delta
  {
    BeatsAreSent(o, h, a);
    BeatsAreRegular(h, delta);
    RegularSuffix(Beats(h), NextBeat(h), LastPoll(h), delta, BeatsBefore(h, a), SentBeats(o, h, a), i);
  }

  ghost predicate Outlasts(timeout: Option<Double>, gap: Time) {
    timeout.Some? && timeout.value.Num? && gap as real < timeout.value.value * 1_000_000_000.0
  }

  lemma {:induction false} AcceptedTimeout(es: seq<F.Event>, gap: Time)
    requires F.Accepts(F.Run(F.INITIAL, es)) && gap < 2_000_000_000
    ensures Outlasts(F.LatestAll(es).timeout, gap)
  {
    F.AcceptedIffPolicy(es);
    var t :| F.LatestAll(es).timeout == Some(Num(t)) && 2.0 <= t <= 10.0;
    assert gap as real < 2.0 * 1_000_000_000.0 <= t * SECOND as real;
  }

  /** The time without a heartbeat after the i-th one: until the next, or up to the last poll. */
  function Wait(sent: seq<Time>, i: nat, polled: Option<Time>): Time
    requires i < |sent| && polled.Some?
  {
    (if i + 1 < |sent| then sent[i + 1] else polled.value) - sent[i]
  }

  lemma WaitsAreShort(beats: seq<Time>, next: Time, polled: Option<Time>, delta: Time, m: nat, sent: seq<Time>, i: nat)
    requires Regular(beats, next, polled, delta) && m <= |beats| && sent == beats[m..] && i < |sent| && delta > 0
    ensures polled.Some? && Wait(sent, i, polled) < 1_000_000_000 + delta
  {
    if i + 1 < |sent| {
      RegularSuffix(beats, next, polled, delta, m, sent, i);
    }
  }

  lemma {:induction false} BeatsKeepComing(o: Options, h: seq<Event>, a: nat, delta: Time, i: nat)
    requires delta > 0 && Paced(h, delta) && LiveFrom(o, h, a) && i < |SentBeats(o, h, a)|
    ensures LastPoll(h).Some? && Wait(SentBeats(o, h, a), i, LastPoll(h)) < 1_000_000_000 + delta
  {
    BeatsAreSent(o, h, a);
    BeatsAreRegular(h, delta);
    WaitsAreShort(Beats(h), NextBeat(h), LastPoll(h), delta, BeatsBefore(h, a), SentBeats(o, h, a), i);
  }

  /** Never is the vehicle without a heartbeat for as long as the timeout that the
      run has accepted, neither between two beats nor since the last one, with polls
      at most a second apart. */
  lemma {:induction false} HeartbeatsOutpaceTheFailsafe(o: Options, h: seq<Event>, a: nat, delta: Time, i: nat)
    requires 0 < delta <= 1_000_000_000 && Paced(h, delta) && LiveFrom(o, h, a) && i < |SentBeats(o, h, a)|
    requires LinkAccepted(LogsOf(o, h))
    ensures LastPoll(h).Some? &&
            Outlasts(F.LatestAll(LogsOf(o, h).failsafe).timeout, Wait(SentBeats(o, h, a), i, LastPoll(h)))
  {
    BeatsKeepComing(o, h, a, delta, i);
    AcceptedTimeout(LogsOf(o, h).failsafe, Wait(SentBeats(o, h, a), i, LastPoll(h)));
  }
}
