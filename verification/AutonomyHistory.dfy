/** What every history of an autonomy runtime keeps: when LAND is requested, how
    fast guidance is streamed, how a landing ends and what its completion means. */
module AutonomyHistory {
  import opened FlightTypes
  import opened CommandTrace
  import opened Guidance
  import opened Autonomy

  // --- LAND is requested exactly after a steady second or a long enough loss ---

  /** A poll that reached supervision before LAND was accepted. */
  datatype Look = Look(at: Time, approved: bool)

  function LookStep(s: Runtime, looks: seq<Look>, e: Event): seq<Look> {
    if e.Restart? then []
    else if e.Poll? && Supervisable(s, e.input) && s.phase != Landing then
      looks + [Look(e.input.now, Approved(e.input.target))]
    else looks
  }

  /** The looks of the current flight. */
  function Looks(cfg: Config, es: seq<Event>): seq<Look> {
    if es == [] then []
    else LookStep(Run(cfg, es[..|es| - 1]), Looks(cfg, es[..|es| - 1]), es[|es| - 1])
  }

  /** Every look from some point on had this verdict, and that point lies at least d back. */
  ghost predicate Held(looks: seq<Look>, approved: bool, d: Time) {
    exists m :: 0 <= m < |looks| && looks[|looks| - 1].at - looks[m].at >= d &&
                forall k :: m <= k < |looks| ==> looks[k].approved == approved
  }

  /** One second of nothing but approved targets, or the loss timeout without any. */
  ghost predicate Steady(cfg: Config, looks: seq<Look>) {
    Held(looks, true, 1_000_000_000) || Held(looks, false, cfg.landAfterLoss)
  }

  /** Where the last run of equal verdicts begins. */
  function StreakStart(looks: seq<Look>): (m: nat)
    requires looks != []
    ensures m < |looks|
  {
    var n := |looks| - 1;
    if n == 0 || looks[n - 1].approved != looks[n].approved then n else StreakStart(looks[..n])
  }

  predicate Ordered(looks: seq<Look>) {
    forall i, j :: 0 <= i < j < |looks| ==> looks[i].at <= looks[j].at
  }

  lemma {:induction false} StreakIsMaximal(looks: seq<Look>)
    requires looks != []
    ensures var m, b := StreakStart(looks), looks[|looks| - 1].approved;
            && (forall k :: m <= k < |looks| ==> looks[k].approved == b)
            && (m > 0 ==> looks[m - 1].approved != b)
  {
    var n := |looks| - 1;
    if n > 0 && looks[n - 1].approved == looks[n].approved {
      StreakIsMaximal(looks[..n]);
    }
  }

  lemma {:induction false} HeldByStreak(looks: seq<Look>, approved: bool, d: Time)
    requires looks != [] && Ordered(looks)
    ensures Held(looks, approved, d) <==>
            looks[|looks| - 1].approved == approved && looks[|looks| - 1].at - looks[StreakStart(looks)].at >= d
  {
    StreakIsMaximal(looks);
    var m := StreakStart(looks);
    if Held(looks, approved, d) {
      var h :| 0 <= h < |looks| && looks[|looks| - 1].at - looks[h].at >= d &&
               forall k :: h <= k < |looks| ==> looks[k].approved == approved;
      assert h >= m;
    }
  }

  ghost predicate LooksInv(s: Runtime, looks: seq<Look>, now: Time) {
    && Ordered(looks)
    && (looks != [] ==> looks[|looks| - 1].at <= now)
    && (s.phase in {Disabled, WaitingForStartup} ==> looks == [])
    && (s.phase == Active ==>
          && looks != []
          && var began := looks[StreakStart(looks)].at;
             if looks[|looks| - 1].approved then s.landAfter == Some(began + 1_000_000_000)
             else s.missingSince == Some(began))
  }

  lemma {:induction false} LooksExtend(looks: seq<Look>, look: Look)
    ensures StreakStart(looks + [look]) ==
            if looks == [] || looks[|looks| - 1].approved != look.approved then |looks| else StreakStart(looks)
  {
    assert (looks + [look])[..|looks|] == looks;
  }

  lemma LooksAfterPoll(s: Runtime, s': Runtime, looks: seq<Look>, i: Input)
    requires Consistent(s) && LooksInv(s, looks, i.now) && LookEffect(s, s', i)
    ensures LooksInv(s',
                     if Supervisable(s, i) && s.phase != Landing then looks + [Look(i.now, Approved(i.target))]
                     else looks,
                     i.now)
  {
    LooksExtend(looks, Look(i.now, Approved(i.target)));
  }

  lemma LooksLater(s: Runtime, looks: seq<Look>, now: Time, later: Time)
    requires LooksInv(s, looks, now) && now <= later
    ensures LooksInv(s, looks, later)
  {
  }

  lemma DeliveryKeepsMarkers(s: Runtime, looks: seq<Look>, now: Time, a: Actions, td: bool, ld: bool)
    requires LooksInv(s, looks, now)
    ensures LooksInv(Deliver(s, a, td, ld), looks, now)
  {
  }

  lemma AckKeepsMarkers(s: Runtime, looks: seq<Look>, e: Event)
    requires e.Ack? && LooksInv(s, looks, e.at)
    ensures LooksInv(OnAck(s, e.action, e.outcome, e.raw, e.source, e.at), looks, e.at)
  {
  }

  lemma StepKeepsLooks(cfg: Config, s: Runtime, looks: seq<Look>, e: Event)
    requires Consistent(s) && LooksInv(s, looks, At(e))
    ensures LooksInv(Step(cfg, s, e), LookStep(s, looks, e), At(e))
  {
    match e
    case Poll(i, td, ld) =>
      var (s', a) := Update(cfg, s, i);
      UpdateLook(cfg, s, i);
      LooksAfterPoll(s, s', looks, i);
      DeliveryKeepsMarkers(s', LookStep(s, looks, e), i.now, a, td, ld);
    case Ack(_, _, _, _, _) => AckKeepsMarkers(s, looks, e);
    case Restart(_) =>
  }

  lemma {:induction false} LooksAlways(cfg: Config, es: seq<Event>, now: Time)
    requires Monotone(es) && (es != [] ==> At(es[|es| - 1]) <= now)
    ensures LooksInv(Run(cfg, es), Looks(cfg, es), now)
  {
    if es != [] {
      var front, e := es[..|es| - 1], es[|es| - 1];
      LooksAlways(cfg, front, At(e));
      StepKeepsLooks(cfg, Run(cfg, front), Looks(cfg, front), e);
      LooksLater(Run(cfg, es), Looks(cfg, es), At(e), now);
    }
  }

  predicate MarkersDue(cfg: Config, s: Runtime, i: Input) {
    if Approved(i.target) then s.landAfter.Some? && i.now >= s.landAfter.value
    else i.now - (if s.missingSince.Some? then s.missingSince.value else i.now) >= cfg.landAfterLoss
  }

  predicate MayAttempt(s: Runtime, now: Time) {
    !(s.awaitingAck && now < s.ackDeadline) && s.landAttempt < 3
  }

  /** When a supervised poll asks for LAND, in terms of the markers. */
  lemma LandByMarkers(cfg: Config, s: Runtime, i: Input)
    requires Consistent(s) && Supervisable(s, i) && s.phase != Landing && cfg.landAfterLoss > 0
    ensures Update(cfg, s, i).1.land.Some? <==> MarkersDue(cfg, s, i) && MayAttempt(s, i.now)
  {
  }

  lemma MarkersDueWhenSteady(cfg: Config, s: Runtime, looks: seq<Look>, i: Input)
    requires Consistent(s) && LooksInv(s, looks, i.now) && cfg.landAfterLoss > 0
    requires Supervisable(s, i) && s.phase != Landing
    ensures MarkersDue(cfg, s, i) <==> Steady(cfg, looks + [Look(i.now, Approved(i.target))])
  {
    var look := Look(i.now, Approved(i.target));
    LooksExtend(looks, look);
    HeldByStreak(looks + [look], true, 1_000_000_000);
    HeldByStreak(looks + [look], false, cfg.landAfterLoss);
  }

  lemma MonotoneFront(es: seq<Event>, e: Event)
    requires Monotone(es + [e])
    ensures Monotone(es) && (es != [] ==> At(es[|es| - 1]) <= At(e))
  {
    assert forall k :: 0 <= k < |es| ==> es[k] == (es + [e])[k];
    assert es != [] ==> At((es + [e])[|es| - 1]) <= At((es + [e])[|es|]);
  }

  /** A poll sends LAND if and only if guidance is still active, its looks are
      steady, no LAND is within its acknowledgement deadline and fewer than three were sent. */
  lemma {:induction false} LandExactlyWhenSteady(cfg: Config, es: seq<Event>, e: Event)
    requires e.Poll? && Monotone(es + [e]) && cfg.landAfterLoss > 0
    ensures var s := Run(cfg, es);
            Emitted(cfg, s, e).land.Some? <==>
            && Supervisable(s, e.input) && s.phase != Landing
            && Steady(cfg, Looks(cfg, es + [e]))
            && MayAttempt(s, e.input.now)
  {
    var s, i := Run(cfg, es), e.input;
    ActionsAreSafe(cfg, s, i);
    if Supervisable(s, i) && s.phase != Landing {
      assert (es + [e])[..|es|] == es;
      MonotoneFront(es, e);
      LooksAlways(cfg, es, i.now);
      MarkersDueWhenSteady(cfg, s, Looks(cfg, es), i);
      LandByMarkers(cfg, s, i);
    }
  }

  /** Whenever the runtime is still active after looks that were steady, LAND has
      been requested: at latest by the first poll one second (or the loss timeout)
      into an unbroken streak. */
  lemma {:induction false} SteadyMeansRequested(cfg: Config, es: seq<Event>)
    requires Monotone(es) && cfg.landAfterLoss > 0
    requires Run(cfg, es).phase == Active && Steady(cfg, Looks(cfg, es))
    ensures Run(cfg, es).landAttempt > 0 && Trace(cfg, es) != []
  {
    TraceInvAlways(cfg, es, At(es[|es| - 1]));
    var front, e := es[..|es| - 1], es[|es| - 1];
    assert es == front + [e];
    match e
    case Poll(i, td, ld) =>
      LandExactlyWhenSteady(cfg, front, e);
      RequestedAfterPoll(cfg, Run(cfg, front), e);
    case Ack(_, _, _, _, _) =>
      SteadyMeansRequested(cfg, front);
    case Restart(_) =>
  }

  function LastPoll(es: seq<Event>): Option<Time> {
    if es == [] then None
    else if es[|es| - 1].Poll? then Some(At(es[|es| - 1]))
    else LastPoll(es[..|es| - 1])
  }

  /** While the runtime is active its last poll was a look. */
  lemma {:induction false} ActiveHasLooked(cfg: Config, es: seq<Event>)
    requires Run(cfg, es).phase == Active
    ensures Looks(cfg, es) != [] && LastPoll(es) == Some(Looks(cfg, es)[|Looks(cfg, es)| - 1].at)
  {
    var front, e := es[..|es| - 1], es[|es| - 1];
    ActivatedBy(cfg, Run(cfg, front), e);
    if !e.Poll? {
      ActiveHasLooked(cfg, front);
    }
  }

  /** An active runtime was already so, or has just looked. */
  lemma ActivatedBy(cfg: Config, s: Runtime, e: Event)
    requires Consistent(s) && Step(cfg, s, e).phase == Active
    ensures !e.Restart? && (e.Ack? ==> s.phase == Active)
    ensures e.Poll? ==> Supervisable(s, e.input) && s.phase != Landing
  {
    if e.Poll? {
      RequestedAfterPoll(cfg, s, e);
    }
  }

  function Longest(a: Time, b: Time): Time { if a >= b then a else b }

  /** With polls at most delta apart up to `now`, LAND has been requested, or the
      runtime is no longer active, max(1 s, loss timeout) + delta after the last
      change of verdict. */
  lemma {:induction false} LandRequestedInTime(cfg: Config, es: seq<Event>, now: Time, delta: Time)
    requires Monotone(es) && cfg.landAfterLoss > 0 && Run(cfg, es).phase == Active
    requires LastPoll(es).Some? && now <= LastPoll(es).value + delta
    requires var looks := Looks(cfg, es);
             looks != [] && now >= looks[StreakStart(looks)].at + Longest(1_000_000_000, cfg.landAfterLoss) + delta
    ensures Run(cfg, es).landAttempt > 0 && Trace(cfg, es) != []
  {
    SteadyInTime(cfg, es, now, delta);
    SteadyMeansRequested(cfg, es);
  }

  lemma {:induction false} SteadyInTime(cfg: Config, es: seq<Event>, now: Time, delta: Time)
    requires Monotone(es) && Run(cfg, es).phase == Active
    requires LastPoll(es).Some? && now <= LastPoll(es).value + delta
    requires var looks := Looks(cfg, es);
             looks != [] && now >= looks[StreakStart(looks)].at + Longest(1_000_000_000, cfg.landAfterLoss) + delta
    ensures Steady(cfg, Looks(cfg, es))
  {
    ActiveHasLooked(cfg, es);
    LooksAreOrdered(cfg, es);
    LongStreakIsSteady(cfg, Looks(cfg, es), LastPoll(es), now, delta);
  }

  lemma LooksAreOrdered(cfg: Config, es: seq<Event>)
    requires Monotone(es)
    ensures Ordered(Looks(cfg, es))
  {
    LooksAlways(cfg, es, if es == [] then 0 else At(es[|es| - 1]));
  }

  lemma {:induction false} LongStreakIsSteady(cfg: Config, looks: seq<Look>, polled: Option<Time>, now: Time,
                                              delta: Time)
    requires looks != [] && Ordered(looks) && polled == Some(looks[|looks| - 1].at) && now <= polled.value + delta
    requires now >= looks[StreakStart(looks)].at + Longest(1_000_000_000, cfg.landAfterLoss) + delta
    ensures Steady(cfg, looks)
  {
    HeldByStreak(looks, true, 1_000_000_000);
    HeldByStreak(looks, false, cfg.landAfterLoss);
  }

  lemma DeliveredActive(s: Runtime, a: Actions, td: bool, ld: bool)
    requires Deliver(s, a, td, ld).phase == Active
    ensures s.phase == Active && Deliver(s, a, td, ld).landAttempt == s.landAttempt
  {
  }

  lemma RequestedAfterPoll(cfg: Config, s: Runtime, e: Event)
    requires e.Poll? && Consistent(s) && Step(cfg, s, e).phase == Active
    ensures Supervisable(s, e.input) && s.phase != Landing
    ensures Emitted(cfg, s, e).land.Some? || !MayAttempt(s, e.input.now) ==> Step(cfg, s, e).landAttempt > 0
  {
    var (s', a) := Update(cfg, s, e.input);
    DeliveredActive(s', a, e.targetDelivered, e.landDelivered);
    UpdateLook(cfg, s, e.input);
    UpdateLand(cfg, s, e.input);
    AttemptedByEffect(s, s', a.land, e.input.now);
  }

  lemma AttemptedByEffect(s: Runtime, s': Runtime, land: Option<FlightRequest>, now: Time)
    requires Consistent(s) && LandEffect(s, s', land, now) && s'.phase == Active
    ensures s.phase in {Active, WaitingForStartup}
    ensures s'.landAttempt == s.landAttempt + if land.Some? then 1 else 0
    ensures land.Some? || !MayAttempt(s, now) ==> s'.landAttempt > 0
  {
  }

  // --- A landing ends ---

  function AcceptStep(s: Runtime, accepted: Option<Time>, e: Event): Option<Time> {
    match e
    case Restart(_) => None
    case Ack(action, Accepted, _, source, at) => if AckMatches(s, action, source) then Some(at) else accepted
    case _ => accepted
  }

  /** When LAND was accepted in the current flight. */
  function LandAcceptedAt(cfg: Config, es: seq<Event>): Option<Time> {
    if es == [] then None
    else AcceptStep(Run(cfg, es[..|es| - 1]), LandAcceptedAt(cfg, es[..|es| - 1]), es[|es| - 1])
  }

  predicate LandingInv(s: Runtime, accepted: Option<Time>) {
    && (accepted.Some? ==> s.phase in {Landing, Completed, Failed})
    && (s.phase == Landing ==> accepted.Some? && s.landingDeadline == accepted.value + 90_000_000_000)
  }

  lemma PollOnLanding(cfg: Config, s: Runtime, e: Event)
    requires e.Poll? && Consistent(s)
    ensures LandingEffect(s, Step(cfg, s, e), e.input)
  {
    UpdateLanding(cfg, s, e.input);
  }

  lemma {:induction false} LandingInvAlways(cfg: Config, es: seq<Event>)
    ensures LandingInv(Run(cfg, es), LandAcceptedAt(cfg, es))
  {
    if es != [] {
      var front, e := es[..|es| - 1], es[|es| - 1];
      LandingInvAlways(cfg, front);
      if e.Poll? { PollOnLanding(cfg, Run(cfg, front), e); }
    }
  }

  /** A poll made 90 s or more after LAND was accepted leaves the flight completed
      or failed, so with polls at most delta apart it is over within 90 s + delta. */
  lemma {:induction false} LandingTerminates(cfg: Config, es: seq<Event>)
    requires es != [] && es[|es| - 1].Poll? && LandAcceptedAt(cfg, es).Some?
    requires At(es[|es| - 1]) >= LandAcceptedAt(cfg, es).value + 90_000_000_000
    ensures Run(cfg, es).phase in {Completed, Failed}
  {
    var front, e := es[..|es| - 1], es[|es| - 1];
    LandingInvAlways(cfg, front);
    PollOnLanding(cfg, Run(cfg, front), e);
  }

  // --- What completion means ---

  function FlightStart(es: seq<Event>): (k: nat)
    ensures k <= |es|
  {
    if es == [] then 0 else if es[|es| - 1].Restart? then |es| else FlightStart(es[..|es| - 1])
  }

  /** The three facts a completed landing rests on: a LAND sent, its acceptance, while
      awaited, by the vehicle being flown, and a connected, disarmed snapshot. */
  predicate Milestone(cfg: Config, es: seq<Event>, k: nat, at: nat)
    requires at < |es|
  {
    var s, e := Run(cfg, es[..at]), es[at];
    match k
    case 0 => Emitted(cfg, s, e).land.Some?
    case 1 => e.Ack? && e.outcome == Accepted && AckMatches(s, e.action, e.source)
    case 2 => e.Poll? && e.input.vehicle.connected && !e.input.vehicle.armed && e.input.linkAccepted
    case _ => false
  }

  ghost predicate Chain(cfg: Config, es: seq<Event>, marks: seq<nat>) {
    && (forall k :: 0 <= k < |marks| ==> FlightStart(es) <= marks[k] < |es| && Milestone(cfg, es, k, marks[k]))
    && (forall i, j :: 0 <= i < j < |marks| ==> marks[i] < marks[j])
  }

  function Progress(s: Runtime): nat {
    match s.phase
    case Active => if s.landAttempt > 0 then 1 else 0
    case Landing => 2
    case Completed => 3
    case _ => 0
  }

  lemma {:induction false} StepProgress(cfg: Config, es: seq<Event>)
    requires es != []
    ensures var n := |es| - 1;
            var p, p' := Progress(Run(cfg, es[..n])), Progress(Run(cfg, es));
            && (p' == 0 || p' == p || (p' == p + 1 && Milestone(cfg, es, p, n)))
            && (p' > 0 ==> !es[n].Restart?)
  {
    var s, e := Run(cfg, es[..|es| - 1]), es[|es| - 1];
    if e.Poll? {
      PollOnLanding(cfg, s, e);
      AttemptsGrowByLand(cfg, s, e);
    }
  }

  lemma AttemptsGrowByLand(cfg: Config, s: Runtime, e: Event)
    requires e.Poll? && Consistent(s)
    ensures var s' := Step(cfg, s, e);
            s'.phase == Active ==>
              s.phase in {Active, WaitingForStartup} &&
              s'.landAttempt == s.landAttempt + (if Emitted(cfg, s, e).land.Some? then 1 else 0)
  {
    var (s', a) := Update(cfg, s, e.input);
    UpdateLand(cfg, s, e.input);
    if Deliver(s', a, e.targetDelivered, e.landDelivered).phase == Active {
      DeliveredActive(s', a, e.targetDelivered, e.landDelivered);
      AttemptedByEffect(s, s', a.land, e.input.now);
    }
  }

  lemma MilestoneStays(cfg: Config, es: seq<Event>, es': seq<Event>, k: nat, at: nat)
    requires at < |es| && es <= es'
    ensures Milestone(cfg, es, k, at) == Milestone(cfg, es', k, at)
  {
    assert es[..at] == es'[..at];
  }

  lemma ChainGrows(cfg: Config, es: seq<Event>, marks: seq<nat>)
    requires es != [] && !es[|es| - 1].Restart? && Chain(cfg, es[..|es| - 1], marks)
    ensures Chain(cfg, es, marks)
    ensures Milestone(cfg, es, |marks|, |es| - 1) ==> Chain(cfg, es, marks + [|es| - 1])
  {
    var front := es[..|es| - 1];
    forall k | 0 <= k < |marks| ensures Milestone(cfg, es, k, marks[k]) {
      MilestoneStays(cfg, front, es, k, marks[k]);
    }
  }

  lemma {:induction false} ProgressIsEarned(cfg: Config, es: seq<Event>)
    ensures exists marks: seq<nat> :: |marks| == Progress(Run(cfg, es)) && Chain(cfg, es, marks)
  {
    if es == [] || Progress(Run(cfg, es)) == 0 {
      assert Chain(cfg, es, []);
    } else {
      var front := es[..|es| - 1];
      ProgressIsEarned(cfg, front);
      StepProgress(cfg, es);
      var marks: seq<nat> :| |marks| == Progress(Run(cfg, front)) && Chain(cfg, front, marks);
      ChainGrows(cfg, es, marks);
      if Progress(Run(cfg, es)) == Progress(Run(cfg, front)) + 1 {
        assert |marks + [|es| - 1]| == Progress(Run(cfg, es));
      }
    }
  }

  lemma {:induction false} CompletedIsLanded(cfg: Config, es: seq<Event>)
    requires Run(cfg, es).phase == Completed
    ensures exists marks: seq<nat> :: |marks| == 3 && Chain(cfg, es, marks)
  {
    ProgressIsEarned(cfg, es);
  }

  // --- Guidance is streamed at 5 Hz ---

  function PaceStep(cfg: Config, s: Runtime, sent: seq<Time>, e: Event): seq<Time>
    requires Consistent(s)
  {
    if e.Restart? then []
    else if e.Poll? && Supervisable(s, e.input) then
      if !Approved(e.input.target) then []
      else if Emitted(cfg, s, e).target.Some? then sent + [e.input.now]
      else sent
    else sent
  }

  /** When LANDING_TARGET was sent since the last look that was not approved. */
  function StreakTargets(cfg: Config, es: seq<Event>): seq<Time> {
    if es == [] then []
    else PaceStep(cfg, Run(cfg, es[..|es| - 1]), StreakTargets(cfg, es[..|es| - 1]), es[|es| - 1])
  }

  ghost predicate Spaced(times: seq<Time>) {
    forall i, j :: 0 <= i < j < |times| && j == i + 1 ==> times[j] >= times[i] + 200_000_000
  }

  ghost predicate PaceInv(s: Runtime, sent: seq<Time>, now: Time) {
    && Spaced(sent)
    && (sent != [] ==> sent[|sent| - 1] <= now)
    && (s.phase in {Disabled, WaitingForStartup} ==> sent == [])
    && (s.phase in {Active, Landing} ==>
          if sent != [] then s.nextTarget == sent[|sent| - 1] + 200_000_000 else s.nextTarget <= now)
    && (s.phase == Active ==> (s.landAfter.Some? <==> sent != []))
  }

  predicate Due(s: Runtime, now: Time) {
    (s.phase != Landing && s.landAfter.None?) || now >= s.nextTarget
  }

  /** All a poll can do to the stream of targets. */
  predicate PaceEffect(s: Runtime, s': Runtime, a: Actions, i: Input) {
    if !Supervisable(s, i) then
      a.target.None? && (s'.phase in {Disabled, WaitingForStartup, Landing, Completed, Failed}) &&
      (s'.phase in {Disabled, WaitingForStartup, Landing} ==> s'.nextTarget == s.nextTarget && s'.phase == s.phase)
    else if !Approved(i.target) then
      a.target.None? && s'.nextTarget == i.now && (s'.phase == Active ==> s'.landAfter.None?) &&
      s'.phase in {Active, Landing, Failed}
    else
      && (a.target.Some? <==> Due(s, i.now))
      && s'.nextTarget == (if Due(s, i.now) then i.now + 200_000_000 else s.nextTarget)
      && (s'.phase == Active ==> s'.landAfter.Some?)
      && s'.phase in {Active, Landing, Failed}
  }

  lemma PollPaces(cfg: Config, s: Runtime, i: Input)
    requires Consistent(s)
    ensures var (s', a) := Update(cfg, s, i);
            PaceEffect(s, s', a, i)
  {
  }

  lemma PaceAfterPoll(s: Runtime, s': Runtime, a: Actions, sent: seq<Time>, i: Input)
    requires Consistent(s) && PaceInv(s, sent, i.now) && PaceEffect(s, s', a, i)
    ensures PaceInv(s',
              if !Supervisable(s, i) then sent else if !Approved(i.target) then []
              else if a.target.Some? then sent + [i.now] else sent, i.now)
  {
  }

  lemma DeliveryKeepsPace(s: Runtime, sent: seq<Time>, now: Time, a: Actions, td: bool, ld: bool)
    requires PaceInv(s, sent, now)
    ensures PaceInv(Deliver(s, a, td, ld), sent, now)
  {
  }

  lemma StepKeepsPace(cfg: Config, s: Runtime, sent: seq<Time>, e: Event)
    requires Consistent(s) && PaceInv(s, sent, At(e))
    ensures PaceInv(Step(cfg, s, e), PaceStep(cfg, s, sent, e), At(e))
  {
    if e.Poll? {
      var (s', a) := Update(cfg, s, e.input);
      PollPaces(cfg, s, e.input);
      PaceAfterPoll(s, s', a, sent, e.input);
      DeliveryKeepsPace(s', PaceStep(cfg, s, sent, e), At(e), a, e.targetDelivered, e.landDelivered);
    }
  }

  lemma {:induction false} PaceAlways(cfg: Config, es: seq<Event>, now: Time)
    requires Monotone(es) && (es != [] ==> At(es[|es| - 1]) <= now)
    ensures PaceInv(Run(cfg, es), StreakTargets(cfg, es), now)
  {
    if es != [] {
      var front, e := es[..|es| - 1], es[|es| - 1];
      PaceAlways(cfg, front, At(e));
      StepKeepsPace(cfg, Run(cfg, front), StreakTargets(cfg, front), e);
    }
  }

  /** On an approved look, LANDING_TARGET is sent if and only if none was sent in
      the last 200 ms of this unbroken streak of approved looks. */
  lemma {:induction false} TargetsExactlyAtInterval(cfg: Config, es: seq<Event>, e: Event)
    requires e.Poll? && Monotone(es + [e])
    requires Supervisable(Run(cfg, es), e.input) && Approved(e.input.target)
    ensures var sent := StreakTargets(cfg, es);
            Emitted(cfg, Run(cfg, es), e).target.Some? <==>
            sent == [] || e.input.now >= sent[|sent| - 1] + 200_000_000
  {
    assert forall k :: 0 <= k < |es| ==> es[k] == (es + [e])[k];
    assert es != [] ==> At((es + [e])[|es| - 1]) <= At((es + [e])[|es|]);
    PaceAlways(cfg, es, e.input.now);
    PollPaces(cfg, Run(cfg, es), e.input);
  }

  lemma StreakIsSpaced(cfg: Config, es: seq<Event>)
    requires Monotone(es)
    ensures Spaced(StreakTargets(cfg, es))
  {
    PaceAlways(cfg, es, if es == [] then 0 else At(es[|es| - 1]));
  }

  /** How many of the times fall between a and b. */
  function InWindow(times: seq<Time>, a: Time, b: Time): nat {
    if times == [] then 0
    else InWindow(times[..|times| - 1], a, b) + if a <= times[|times| - 1] <= b then 1 else 0
  }

  ghost predicate EndsBy(times: seq<Time>, c: Time) { forall k :: 0 <= k < |times| ==> times[k] <= c }

  lemma {:induction false} EarlierBySpacing(times: seq<Time>)
    requires Spaced(times) && times != []
    ensures EndsBy(times[..|times| - 1], times[|times| - 1] - 200_000_000)
  {
    var n := |times| - 1;
    if n > 0 {
      EarlierBySpacing(times[..n]);
      var i := n - 1;
      assert times[n] >= times[i] + 200_000_000;
    }
  }

  /** Only the part of a window up to the last of the times matters. */
  lemma {:induction false} WindowShrinks(times: seq<Time>, a: Time, b: Time, c: Time)
    requires c <= b && EndsBy(times, c)
    ensures InWindow(times, a, b) == InWindow(times, a, c)
    ensures c < a ==> InWindow(times, a, b) == 0
  {
    if times != [] {
      WindowShrinks(times[..|times| - 1], a, b, c);
    }
  }

  lemma {:induction false} WindowRate(times: seq<Time>, a: Time, b: Time)
    requires Spaced(times) && a <= b
    ensures InWindow(times, a, b) <= (b - a) / 200_000_000 + 1
  {
    if times != [] {
      var (front, last) := (times[..|times| - 1], times[|times| - 1]);
      if a <= last <= b {
        var c := last - 200_000_000;
        EarlierBySpacing(times);
        WindowShrinks(front, a, b, c);
        if a <= c {
          WindowRate(front, a, c);
          OneMore(c - a, b - a);
        } else {
          assert (b - a) / 200_000_000 >= 0;
        }
      } else {
        WindowRate(front, a, b);
      }
    }
  }

  lemma OneMore(w: Time, w': Time)
    requires w + 200_000_000 <= w'
    ensures w / 200_000_000 + 1 <= w' / 200_000_000
  {
  }

  /** No look that was not approved and no restart from position m on. */
  ghost predicate Unbroken(cfg: Config, es: seq<Event>, m: nat) {
    |es| > m ==>
      var (front, e) := (es[..|es| - 1], es[|es| - 1]);
      Unbroken(cfg, front, m) && !e.Restart? &&
      (e.Poll? && Supervisable(Run(cfg, front), e.input) ==> Approved(e.input.target))
  }

  /** When LANDING_TARGET was sent from position m on. */
  function TargetsFrom(cfg: Config, es: seq<Event>, m: nat): seq<Time> {
    if |es| <= m then []
    else
      var (front, e) := (es[..|es| - 1], es[|es| - 1]);
      TargetsFrom(cfg, front, m) + if Emitted(cfg, Run(cfg, front), e).target.Some? then [At(e)] else []
  }

  /** How many targets of the current streak were sent before position m. */
  function StreakBefore(cfg: Config, es: seq<Event>, m: nat): nat {
    if |es| <= m then |StreakTargets(cfg, es)| else StreakBefore(cfg, es[..|es| - 1], m)
  }

  lemma {:induction false} UnbrokenIsOneStreak(cfg: Config, es: seq<Event>, m: nat)
    requires Unbroken(cfg, es, m)
    ensures StreakBefore(cfg, es, m) <= |StreakTargets(cfg, es)|
    ensures TargetsFrom(cfg, es, m) == StreakTargets(cfg, es)[StreakBefore(cfg, es, m)..]
  {
    if |es| > m {
      var (front, e) := (es[..|es| - 1], es[|es| - 1]);
      UnbrokenIsOneStreak(cfg, front, m);
      if e.Poll? {
        ActionsAreSafe(cfg, Run(cfg, front), e.input);
      }
    }
  }

  lemma SpacedSuffix(times: seq<Time>, k: nat)
    requires Spaced(times) && k <= |times|
    ensures Spaced(times[k..])
  {
    forall i, j | 0 <= i < j < |times[k..]| && j == i + 1 ensures times[k..][j] >= times[k..][i] + 200_000_000 {
      var (p, q) := (k + i, k + j);
      assert times[q] >= times[p] + 200_000_000;
    }
  }

  /** Over any stretch of a run without a look that was not approved, any window of
      length w holds at most w / 200 ms + 1 LANDING_TARGETs. */
  lemma TargetRate(cfg: Config, es: seq<Event>, m: nat, a: Time, w: Time)
    requires Monotone(es) && Unbroken(cfg, es, m) && w >= 0
    ensures InWindow(TargetsFrom(cfg, es, m), a, a + w) <= w / 200_000_000 + 1
  {
    StreakIsSpaced(cfg, es);
    UnbrokenIsOneStreak(cfg, es, m);
    SpacedSuffix(StreakTargets(cfg, es), StreakBefore(cfg, es, m));
    WindowRate(TargetsFrom(cfg, es, m), a, a + w);
  }
}
