/** Acquisition, identity, expiry and smoothing of the landing-target track. */
module Tracking {
  import opened FlightTypes
  import opened Smoothing

  const UINT32_MAX := 0xFFFF_FFFF
  const UINT64_RANGE := 0x1_0000_0000_0000_0000

  datatype Observation = Observation(id: int, correctedBits: int, margin: Double, position: Option<CameraPosition>)

  /** A finite position in the camera frame. */
  datatype Point = Point(right: real, down: real, forward: real)

  datatype Config = Config(required: nat, lossTimeout: Time, alpha: real, minMargin: real)

  const DEFAULT := Config(3, 500 * MILLISECOND, 0.35, 20.0)

  predicate ValidConfig(cfg: Config) {
    1 <= cfg.required <= UINT32_MAX && cfg.lossTimeout > 0 && Factor(cfg.alpha) && cfg.minMargin >= 0.0
  }

  predicate ValidObservation(cfg: Config, o: Observation) {
    && o.position.Some? && o.correctedBits == 0
    && o.margin.Num? && o.margin.value >= cfg.minMargin
    && var p := o.position.value;
       p.right.Num? && p.down.Num? && p.forward.Num? && p.forward.value > 0.0
  }

  function PointOf(cfg: Config, o: Observation): Point
    requires ValidObservation(cfg, o)
  {
    var p := o.position.value;
    Point(p.right.value, p.down.value, p.forward.value)
  }

  // --- Which observation of a frame is selected ---

  predicate Eligible(cfg: Config, o: Observation, want: Option<int>) {
    ValidObservation(cfg, o) && (want.Some? ==> o.id == want.value)
  }

  /** Uncorrected, with enough margin, at a finite place in front of the camera, and of the tag that is wanted. */
  predicate Sighting(cfg: Config, o: Observation, want: Option<int>) {
    && o.correctedBits == 0 && (want == None || want == Some(o.id))
    && (match o.margin case Num(margin) => margin >= cfg.minMargin case _ => false)
    && (match o.position
        case Some(CameraPosition(Num(_), Num(_), Num(forward))) => forward > 0.0
        case _ => false)
  }

  /** The first sighting of the greatest margin. */
  predicate IsBest(cfg: Config, obs: seq<Observation>, want: Option<int>, k: nat) {
    && k < |obs| && Sighting(cfg, obs[k], want)
    && (forall j :: 0 <= j < |obs| && Sighting(cfg, obs[j], want) ==>
          if j < k then obs[j].margin.value < obs[k].margin.value else obs[j].margin.value <= obs[k].margin.value)
  }

  function Best(cfg: Config, obs: seq<Observation>, want: Option<int>): (r: Option<nat>)
    ensures r.Some? ==> r.value < |obs| && Eligible(cfg, obs[r.value], want)
  {
    if obs == [] then None
    else
      var n := |obs| - 1;
      var b := Best(cfg, obs[..n], want);
      if Eligible(cfg, obs[n], want) && (b.None? || obs[n].margin.value > obs[b.value].margin.value) then Some(n) else b
  }

  lemma {:induction false} BestMeaning(cfg: Config, obs: seq<Observation>, want: Option<int>)
    ensures forall k: nat :: Best(cfg, obs, want) == Some(k) <==> IsBest(cfg, obs, want, k)
    ensures Best(cfg, obs, want).None? <==> forall j :: 0 <= j < |obs| ==> !Sighting(cfg, obs[j], want)
  {
    if obs != [] {
      var n := |obs| - 1;
      var front, r := obs[..n], Best(cfg, obs, want);
      BestMeaning(cfg, front, want);
      assert forall j :: 0 <= j < n ==> front[j] == obs[j];
      assert Best(cfg, front, want).Some? ==> IsBest(cfg, front, want, Best(cfg, front, want).value);
      assert r.Some? ==> IsBest(cfg, obs, want, r.value);
      forall k: nat | IsBest(cfg, obs, want, k) ensures r == Some(k) {
        assert r.Some? && Eligible(cfg, obs[r.value], want) && Eligible(cfg, obs[k], want);
      }
    }
  }

  // --- The track ---

  datatype Track = Track(
    targetId: Option<int>,
    consecutive: nat,
    accepted: nat,
    lastObserved: Option<Time>,
    margin: Option<real>,
    position: Option<Point>)

  const EMPTY := Track(None, 0, 0, None, None, None)

  predicate Consistent(t: Track) {
    && t.consecutive <= UINT32_MAX && t.accepted < UINT64_RANGE
    && (t.targetId.Some? <==> t.lastObserved.Some?) && (t.targetId.Some? <==> t.position.Some?)
    && (t.targetId.None? ==> t == EMPTY)
  }

  function BlendPoint(p: Point, m: Point, alpha: real): Point {
    Point(Blend(p.right, m.right, alpha), Blend(p.down, m.down, alpha), Blend(p.forward, m.forward, alpha))
  }

  predicate Expired(cfg: Config, t: Track, now: Time) {
    t.lastObserved.Some? && now >= t.lastObserved.value && now - t.lastObserved.value > cfg.lossTimeout
  }

  function Accept(cfg: Config, t: Track, o: Observation, now: Time): Track
    requires Consistent(t) && ValidObservation(cfg, o)
  {
    var m := PointOf(cfg, o);
    if t.targetId.None? then Track(Some(o.id), 1, 1, Some(now), Some(o.margin.value), Some(m))
    else
      Track(t.targetId, if t.consecutive < UINT32_MAX then t.consecutive + 1 else t.consecutive,
            (t.accepted + 1) % UINT64_RANGE, Some(now), Some(o.margin.value),
            Some(BlendPoint(t.position.value, m, cfg.alpha)))
  }

  /** One processed frame: a single scan decides. */
  function Step(cfg: Config, t: Track, f: Frame): (t': Track)
    requires Consistent(t)
    ensures Consistent(t')
  {
    var live := if Expired(cfg, t, f.at) then EMPTY else t;
    var b := Best(cfg, f.obs, live.targetId);
    if b.Some? then Accept(cfg, live, f.obs[b.value], f.at)
    else if live.targetId.Some? && live.consecutive < cfg.required then EMPTY
    else live
  }

  datatype TrackPhase = Searching | Acquiring | Locked

  datatype Snapshot = Snapshot(phase: TrackPhase, targetId: Option<int>, age: Option<Time>, position: Option<Point>)

  function SnapshotOf(cfg: Config, t: Track, now: Time): Snapshot {
    if t.targetId.None? || Expired(cfg, t, now) then Snapshot(Searching, None, None, None)
    else
      Snapshot(if t.consecutive >= cfg.required then Locked else Acquiring, t.targetId,
               if t.lastObserved.Some? then Some(if now >= t.lastObserved.value then now - t.lastObserved.value else 0)
               else None,
               t.position)
  }

  // --- Histories ---

  datatype Frame = Frame(obs: seq<Observation>, at: Time)

  function Run(cfg: Config, fs: seq<Frame>): (t: Track)
    ensures Consistent(t)
  {
    if fs == [] then EMPTY else Step(cfg, Run(cfg, fs[..|fs| - 1]), fs[|fs| - 1])
  }

  /** Observation `index` of frame `frame` was accepted into the current track. */
  datatype Hit = Hit(frame: nat, index: nat)

  predicate InFrames(fs: seq<Frame>, h: Hit) { h.frame < |fs| && h.index < |fs[h.frame].obs| }

  function Seen(fs: seq<Frame>, h: Hit): Observation
    requires InFrames(fs, h)
  {
    fs[h.frame].obs[h.index]
  }

  ghost predicate Lineage(cfg: Config, fs: seq<Frame>, hits: seq<Hit>) {
    Genuine(cfg, fs, hits) && Unbroken(cfg, fs, hits)
  }

  /** Valid observations of one identity. */
  ghost predicate Genuine(cfg: Config, fs: seq<Frame>, hits: seq<Hit>) {
    && (forall i :: 0 <= i < |hits| ==>
          InFrames(fs, hits[i]) && Sighting(cfg, Seen(fs, hits[i]), None) && ValidObservation(cfg, Seen(fs, hits[i])))
    && (forall i :: 0 <= i < |hits| ==> Seen(fs, hits[i]).id == Seen(fs, hits[0]).id)
  }

  ghost predicate Unbroken(cfg: Config, fs: seq<Frame>, hits: seq<Hit>)
    requires Genuine(cfg, fs, hits)
  {
    // frames in order, never further apart than the loss timeout
    && (forall i, j :: 0 <= i < j < |hits| ==> hits[i].frame < hits[j].frame)
    && (forall i, j :: 0 <= i < j < |hits| && j == i + 1 ==>
          fs[hits[j].frame].at - fs[hits[i].frame].at <= cfg.lossTimeout)
    // the acquiring observations come from consecutive frames
    && (forall i :: 0 <= i < |hits| && i < cfg.required ==> hits[i].frame == hits[0].frame + i)
    && (0 < |hits| < cfg.required ==> hits[|hits| - 1].frame == |fs| - 1)
  }

  ghost predicate Selection(cfg: Config, fs: seq<Frame>, hits: seq<Hit>)
    requires forall i :: 0 <= i < |hits| ==> InFrames(fs, hits[i])
  {
    // each is the best of its frame under the identity of the track
    && (forall i :: 0 <= i < |hits| ==>
          InFrames(fs, hits[i]) &&
          IsBest(cfg, fs[hits[i].frame].obs, if i == 0 then None else Some(Seen(fs, hits[0]).id), hits[i].index))
    // no later frame holding an eligible observation was passed over
    && (hits != [] ==> forall f :: hits[|hits| - 1].frame < f < |fs| ==>
          Best(cfg, fs[f].obs, Some(Seen(fs, hits[0]).id)).None?)
  }

  /** Where the current track comes from: a true account of the frames since the
      last expiry or broken acquisition. */
  ghost predicate Provenance(cfg: Config, fs: seq<Frame>, hits: seq<Hit>) {
    Lineage(cfg, fs, hits) && Selection(cfg, fs, hits)
  }

  function Min(a: nat, b: nat): nat { if a <= b then a else b }

  function Points(cfg: Config, fs: seq<Frame>, hits: seq<Hit>): (ps: seq<Point>)
    requires forall i :: 0 <= i < |hits| ==> InFrames(fs, hits[i]) && ValidObservation(cfg, Seen(fs, hits[i]))
    ensures |ps| == |hits|
  {
    seq(|hits|, i requires 0 <= i < |hits| => PointOf(cfg, Seen(fs, hits[i])))
  }

  function Rights(ps: seq<Point>): seq<real> { seq(|ps|, i requires 0 <= i < |ps| => ps[i].right) }
  function Downs(ps: seq<Point>): seq<real> { seq(|ps|, i requires 0 <= i < |ps| => ps[i].down) }
  function Forwards(ps: seq<Point>): seq<real> { seq(|ps|, i requires 0 <= i < |ps| => ps[i].forward) }

  function SmoothPoint(ps: seq<Point>, alpha: real): Point
    requires ps != []
  {
    Point(Smooth(Rights(ps), alpha), Smooth(Downs(ps), alpha), Smooth(Forwards(ps), alpha))
  }

  lemma SmoothPointGrows(ps: seq<Point>, p: Point, alpha: real)
    requires ps != []
    ensures SmoothPoint(ps + [p], alpha) == BlendPoint(SmoothPoint(ps, alpha), p, alpha)
  {
    var n := |ps|;
    assert Rights(ps + [p])[..n] == Rights(ps);
    assert Downs(ps + [p])[..n] == Downs(ps);
    assert Forwards(ps + [p])[..n] == Forwards(ps);
  }

  /** The whole track, computed from its provenance. */
  ghost predicate Summarizes(cfg: Config, t: Track, fs: seq<Frame>, hits: seq<Hit>)
    requires Provenance(cfg, fs, hits)
  {
    if hits == [] then t == EMPTY
    else
      var last := hits[|hits| - 1];
      t == Track(Some(Seen(fs, hits[0]).id), Min(|hits|, 0xFFFF_FFFF), |hits| % 0x1_0000_0000_0000_0000,
                 Some(fs[last.frame].at), Some(Seen(fs, last).margin.value),
                 Some(SmoothPoint(Points(cfg, fs, hits), cfg.alpha)))
  }

  ghost predicate Explains(cfg: Config, t: Track, fs: seq<Frame>, hits: seq<Hit>) {
    Provenance(cfg, fs, hits) && Summarizes(cfg, t, fs, hits)
  }

  lemma NoHits(cfg: Config, fs: seq<Frame>)
    ensures Explains(cfg, EMPTY, fs, [])
  {
  }

  lemma FirstHit(cfg: Config, fs: seq<Frame>, k: nat)
    requires ValidConfig(cfg) && fs != [] && IsBest(cfg, fs[|fs| - 1].obs, None, k)
    ensures Explains(cfg, Accept(cfg, EMPTY, fs[|fs| - 1].obs[k], fs[|fs| - 1].at), fs, [Hit(|fs| - 1, k)])
  {
    var hits := [Hit(|fs| - 1, k)];
    assert Provenance(cfg, fs, hits);
    var p := PointOf(cfg, fs[|fs| - 1].obs[k]);
    assert Points(cfg, fs, hits) == [p];
    assert Rights([p]) == [p.right] && Downs([p]) == [p.down] && Forwards([p]) == [p.forward];
  }

  lemma HitsSurvive(fs: seq<Frame>, f: Frame, hits: seq<Hit>)
    requires forall i :: 0 <= i < |hits| ==> InFrames(fs, hits[i])
    ensures forall i :: 0 <= i < |hits| ==> InFrames(fs + [f], hits[i]) && Seen(fs + [f], hits[i]) == Seen(fs, hits[i])
  {
  }

  lemma GenuineGrows(cfg: Config, fs: seq<Frame>, f: Frame, hits: seq<Hit>, k: nat)
    requires hits != [] && Genuine(cfg, fs, hits)
    requires k < |f.obs| && Eligible(cfg, f.obs[k], Some(Seen(fs, hits[0]).id))
    ensures Genuine(cfg, fs + [f], hits + [Hit(|fs|, k)])
  {
    HitsSurvive(fs, f, hits);
    assert Seen(fs + [f], Hit(|fs|, k)) == f.obs[k];
  }

  lemma UnbrokenGrows(cfg: Config, fs: seq<Frame>, f: Frame, hits: seq<Hit>, k: nat)
    requires hits != [] && Lineage(cfg, fs, hits) && Genuine(cfg, fs + [f], hits + [Hit(|fs|, k)])
    requires f.at - fs[hits[|hits| - 1].frame].at <= cfg.lossTimeout
    ensures Unbroken(cfg, fs + [f], hits + [Hit(|fs|, k)])
  {
  }

  lemma LineageGrows(cfg: Config, fs: seq<Frame>, f: Frame, hits: seq<Hit>, k: nat)
    requires hits != [] && Lineage(cfg, fs, hits)
    requires f.at - fs[hits[|hits| - 1].frame].at <= cfg.lossTimeout
    requires k < |f.obs| && Eligible(cfg, f.obs[k], Some(Seen(fs, hits[0]).id))
    ensures Lineage(cfg, fs + [f], hits + [Hit(|fs|, k)])
  {
    GenuineGrows(cfg, fs, f, hits, k);
    UnbrokenGrows(cfg, fs, f, hits, k);
  }

  lemma SelectionGrows(cfg: Config, fs: seq<Frame>, f: Frame, hits: seq<Hit>, k: nat)
    requires forall i :: 0 <= i < |hits| ==> InFrames(fs, hits[i])
    requires hits != [] && Selection(cfg, fs, hits)
    requires IsBest(cfg, f.obs, Some(Seen(fs, hits[0]).id), k)
    ensures Selection(cfg, fs + [f], hits + [Hit(|fs|, k)])
  {
    HitsSurvive(fs, f, hits);
  }

  lemma NextCount(n: nat)
    ensures (n % UINT64_RANGE + 1) % UINT64_RANGE == (n + 1) % UINT64_RANGE
  {
  }

  lemma NextHit(cfg: Config, t: Track, fs: seq<Frame>, f: Frame, hits: seq<Hit>, k: nat)
    requires ValidConfig(cfg) && hits != [] && Explains(cfg, t, fs, hits) && Consistent(t)
    requires !Expired(cfg, t, f.at)
    requires IsBest(cfg, f.obs, t.targetId, k)
    ensures Explains(cfg, Accept(cfg, t, f.obs[k], f.at), fs + [f], hits + [Hit(|fs|, k)])
  {
    var fs', hits' := fs + [f], hits + [Hit(|fs|, k)];
    LineageGrows(cfg, fs, f, hits, k);
    SelectionGrows(cfg, fs, f, hits, k);
    HitsSurvive(fs, f, hits);
    assert Points(cfg, fs', hits') == Points(cfg, fs, hits) + [PointOf(cfg, f.obs[k])];
    SmoothPointGrows(Points(cfg, fs, hits), PointOf(cfg, f.obs[k]), cfg.alpha);
    NextCount(|hits|);
  }

  lemma {:induction false} MissedFrame(cfg: Config, t: Track, fs: seq<Frame>, f: Frame, hits: seq<Hit>)
    requires hits != [] && Explains(cfg, t, fs, hits)
    requires |hits| >= cfg.required && Best(cfg, f.obs, t.targetId).None?
    ensures Explains(cfg, t, fs + [f], hits)
  {
    assert forall i :: 0 <= i < |hits| ==> Seen(fs + [f], hits[i]) == Seen(fs, hits[i]);
    assert Points(cfg, fs + [f], hits) == Points(cfg, fs, hits);
  }

  /** More than the loss timeout has passed since the last of these observations. */
  predicate Outlasted(cfg: Config, fs: seq<Frame>, hits: seq<Hit>, now: Time)
    requires forall i :: 0 <= i < |hits| ==> InFrames(fs, hits[i])
  {
    hits != [] && InFrames(fs, hits[|hits| - 1]) && now - fs[hits[|hits| - 1].frame].at > cfg.lossTimeout
  }

  /** The accepted observations after one more frame: they lapse with the loss
      timeout or with a miss before there are enough of them, and otherwise only
      the best observation of their own tag joins them. */
  function Next(cfg: Config, fs: seq<Frame>, hits: seq<Hit>, f: Frame): (r: seq<Hit>)
    requires forall i :: 0 <= i < |hits| ==> InFrames(fs, hits[i])
    ensures forall i :: 0 <= i < |r| ==> InFrames(fs + [f], r[i])
  {
    var live := if Outlasted(cfg, fs, hits, f.at) then [] else hits;
    var b := Best(cfg, f.obs, if live == [] then None else Some(Seen(fs, live[0]).id));
    if b.Some? then live + [Hit(|fs|, b.value)]
    else if |live| < cfg.required then []
    else live
  }

  /** The observations behind the current track, read off the frames alone. */
  function Hits(cfg: Config, fs: seq<Frame>): (r: seq<Hit>)
    ensures forall i :: 0 <= i < |r| ==> InFrames(fs, r[i])
  {
    if fs == [] then []
    else
      var front, f := fs[..|fs| - 1], fs[|fs| - 1];
      assert front + [f] == fs;
      Next(cfg, front, Hits(cfg, front), f)
  }

  /** The tracker's own expiry and identity are those of its history. */
  lemma LiveTrack(cfg: Config, t: Track, fs: seq<Frame>, hits: seq<Hit>, now: Time)
    requires ValidConfig(cfg) && Explains(cfg, t, fs, hits)
    ensures Expired(cfg, t, now) <==> Outlasted(cfg, fs, hits, now)
    ensures t.targetId == if hits == [] then None else Some(Seen(fs, hits[0]).id)
    ensures t.consecutive < cfg.required <==> |hits| < cfg.required
  {
  }

  lemma StepIsExplained(cfg: Config, t: Track, fs: seq<Frame>, f: Frame, hits: seq<Hit>)
    requires ValidConfig(cfg) && Consistent(t) && Explains(cfg, t, fs, hits)
    ensures Explains(cfg, Step(cfg, t, f), fs + [f], Next(cfg, fs, hits, f))
  {
    LiveTrack(cfg, t, fs, hits, f.at);
    var live := if Outlasted(cfg, fs, hits, f.at) then [] else hits;
    var want := if live == [] then None else Some(Seen(fs, live[0]).id);
    var b := Best(cfg, f.obs, want);
    BestMeaning(cfg, f.obs, want);
    if b.Some? {
      if live == [] {
        FirstHit(cfg, fs + [f], b.value);
      } else {
        NextHit(cfg, t, fs, f, hits, b.value);
      }
    } else if |live| >= cfg.required {
      MissedFrame(cfg, t, fs, f, hits);
    } else {
      NoHits(cfg, fs + [f]);
    }
  }

  /** After any frames the track is exactly the summary of its observations. */
  lemma {:induction false} TrackIsExplained(cfg: Config, fs: seq<Frame>)
    requires ValidConfig(cfg)
    ensures Explains(cfg, Run(cfg, fs), fs, Hits(cfg, fs))
  {
    if fs == [] {
      NoHits(cfg, fs);
    } else {
      var front, f := fs[..|fs| - 1], fs[|fs| - 1];
      assert fs == front + [f];
      TrackIsExplained(cfg, front);
      StepIsExplained(cfg, Run(cfg, front), front, f, Hits(cfg, front));
    }
  }

  /** A lock is reported exactly while there are at least `required` observations
      and the silence since is within the loss timeout; then the first ones come
      from consecutive frames and the position is their smoothed one, in front of
      the camera. */
  lemma {:induction false} LockIsEarned(cfg: Config, fs: seq<Frame>, now: Time)
    requires ValidConfig(cfg)
    ensures var hits := Hits(cfg, fs);
            var snap := SnapshotOf(cfg, Run(cfg, fs), now);
            && (snap.phase == Locked <==>
                  |hits| >= cfg.required && now - fs[hits[|hits| - 1].frame].at <= cfg.lossTimeout)
            && (snap.phase == Locked ==>
                  && Provenance(cfg, fs, hits)
                  && snap.targetId == Some(Seen(fs, hits[0]).id)
                  && snap.position == Some(SmoothPoint(Points(cfg, fs, hits), cfg.alpha))
                  && snap.position.value.forward > 0.0
                  && var last := fs[hits[|hits| - 1].frame].at;
                     snap.age == Some(if now >= last then now - last else 0))
  {
    TrackIsExplained(cfg, fs);
    var hits := Hits(cfg, fs);
    LiveTrack(cfg, Run(cfg, fs), fs, hits, now);
    if hits != [] {
      InFront(cfg, fs, hits);
    }
  }

  lemma InFront(cfg: Config, fs: seq<Frame>, hits: seq<Hit>)
    requires ValidConfig(cfg) && hits != [] && Genuine(cfg, fs, hits)
    ensures SmoothPoint(Points(cfg, fs, hits), cfg.alpha).forward > 0.0
  {
    var forwards := Forwards(Points(cfg, fs, hits));
    forall i | 0 <= i < |forwards| ensures forwards[i] > 0.0 {
      assert ValidObservation(cfg, Seen(fs, hits[i]));
    }
    StaysPositive(forwards, cfg.alpha);
  }

  predicate InBox(p: Point, lo: Point, hi: Point) {
    lo.right <= p.right <= hi.right && lo.down <= p.down <= hi.down && lo.forward <= p.forward <= hi.forward
  }

  /** The smoothed position lies in every box that holds the accepted measurements. */
  lemma SmoothedInBox(ps: seq<Point>, alpha: real, lo: Point, hi: Point)
    requires ps != [] && Factor(alpha)
    requires forall i :: 0 <= i < |ps| ==> InBox(ps[i], lo, hi)
    ensures InBox(SmoothPoint(ps, alpha), lo, hi)
  {
    StaysInRange(Rights(ps), alpha, lo.right, hi.right);
    StaysInRange(Downs(ps), alpha, lo.down, hi.down);
    StaysInRange(Forwards(ps), alpha, lo.forward, hi.forward);
  }

  // --- The component ---

  class TargetTracker {
    const cfg: Config
    var targetId: Option<int>
    var consecutive: nat
    var accepted: nat
    var lastObserved: Option<Time>
    var margin: Option<real>
    var position: Option<Point>

    function State(): Track
      reads this
    {
      Track(targetId, consecutive, accepted, lastObserved, margin, position)
    }

    ghost predicate Valid()
      reads this
    {
      Consistent(State())
    }

    constructor Init(cfg: Config)
      ensures this.cfg == cfg && Valid() && State() == EMPTY
    {
      this.cfg := cfg;
      targetId, consecutive, accepted, lastObserved, margin, position := None, 0, 0, None, None, None;
    }

    /** The source's constructor refuses a configuration out of range. */
    static method Create(cfg: Config) returns (t: TargetTracker?)
      requires cfg.required <= UINT32_MAX
      ensures t == null <==>
              cfg.required == 0 || cfg.lossTimeout <= 0 || cfg.alpha <= 0.0 || cfg.alpha > 1.0 || cfg.minMargin < 0.0
      ensures t != null ==> ValidConfig(cfg)
      ensures t != null ==> fresh(t) && t.cfg == cfg && t.Valid() && t.State() == EMPTY
    {
      if cfg.required == 0 || cfg.lossTimeout <= 0 || cfg.alpha <= 0.0 || cfg.alpha > 1.0 || cfg.minMargin < 0.0 {
        return null;
      }
      t := new TargetTracker.Init(cfg);
    }

    method Reset()
      modifies this
      ensures State() == EMPTY
    {
      targetId, consecutive, accepted, lastObserved, margin, position := None, 0, 0, None, None, None;
    }

    /** One scan for the best observation, of one identity if there is one to keep. */
    method Scan(obs: seq<Observation>, want: Option<int>) returns (selected: Option<nat>)
      ensures selected == Best(cfg, obs, want)
    {
      selected := None;
      for n := 0 to |obs|
        invariant selected == Best(cfg, obs[..n], want)
      {
        assert obs[..n + 1][..n] == obs[..n];
        if !ValidObservation(cfg, obs[n]) {
          continue;
        }
        if want.Some? && obs[n].id != want.value {
          continue;
        }
        if selected.None? || obs[n].margin.value > obs[selected.value].margin.value {
          selected := Some(n);
        }
      }
      assert obs[..|obs|] == obs;
    }

    /** The source scans a second time when nothing was selected and there is no
        identity to keep; Step shows that the second scan changes nothing. */
    method Update(f: Frame)
      requires Valid()
      modifies this
      ensures Valid() && State() == Step(cfg, old(State()), f)
    {
      if Expired(cfg, State(), f.at) {
        Reset();
      }
      var selected := Scan(f.obs, targetId);
      if selected.None? && targetId.Some? {
        if consecutive < cfg.required {
          Reset();
        }
        return;
      }
      if selected.None? {
        selected := Scan(f.obs, None);
      }
      if selected.None? {
        return;
      }
      var o := f.obs[selected.value];
      var measurement := PointOf(cfg, o);
      if targetId.None? {
        targetId, consecutive, accepted, position := Some(o.id), 1, 1, Some(measurement);
      } else {
        if consecutive < UINT32_MAX {
          consecutive := consecutive + 1;
        }
        accepted := (accepted + 1) % UINT64_RANGE;
        position := Some(BlendPoint(position.value, measurement, cfg.alpha));
      }
      lastObserved := Some(f.at);
      margin := Some(o.margin.value);
    }
  }
}
