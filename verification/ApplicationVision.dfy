/** From camera frames to guidance: in every run the runtime is given a target
    exactly while a tag is locked and recent, and it is where the tag is. */
module ApplicationVision {
  import opened FlightTypes
  import opened Application
  import Guidance
  import K = Tracking
  import L = ApplicationFlights
  import M = ApplicationMessages
  import X = Transform

  /** Three sightings, 500 ms, smoothing 0.35, margin 20. */
  const VISION := K.Config(3, 500_000_000, 0.35, 20.0)

  /** At least three sightings of one tag, the last at most 250 ms ago. */
  predicate TagInView(frames: seq<K.Frame>, now: Time) {
    var hits := K.Hits(VISION, frames);
    |hits| >= 3 && hits[|hits| - 1].frame < |frames| && now - frames[hits[|hits| - 1].frame].at <= 250_000_000
  }

  ghost function SmoothedTag(frames: seq<K.Frame>): K.Point
    requires K.Hits(VISION, frames) != []
  {
    K.TrackIsExplained(VISION, frames);
    K.SmoothPoint(K.Points(VISION, frames, K.Hits(VISION, frames)), 0.35)
  }

  /** Rotation rows times camera coordinates (right, down, forward) plus the camera's place. */
  function Placed(e: X.Extrinsics, p: K.Point): BodyPosition
    requires X.FiniteRotation(e.rotation) && X.FiniteBody(e.origin)
  {
    var r := e.rotation;
    BodyPosition(
      Num(r[0].value * p.right + r[1].value * p.down + r[2].value * p.forward + e.origin.forward.value),
      Num(r[3].value * p.right + r[4].value * p.down + r[5].value * p.forward + e.origin.right.value),
      Num(r[6].value * p.right + r[7].value * p.down + r[8].value * p.forward + e.origin.down.value))
  }

  lemma RowIsPlaced(r: X.Rotation, row: int, p: K.Point)
    requires X.FiniteRotation(r) && 0 <= row < 3
    ensures X.Dot(X.RowAt(r, row), X.Vec(p.right, p.down, p.forward)) ==
            r[row * 3].value * p.right + r[row * 3 + 1].value * p.down + r[row * 3 + 2].value * p.forward
  {
  }

  lemma ApplyIsPlaced(e: X.Extrinsics, p: K.Point)
    requires X.FiniteRotation(e.rotation) && X.FiniteBody(e.origin)
    ensures X.BodyOf(X.Plus(X.Apply(X.MatrixOf(e.rotation), X.Vec(p.right, p.down, p.forward)), X.VecOf(e.origin))) ==
            Placed(e, p)
  {
    var (r, v) := (e.rotation, X.Vec(p.right, p.down, p.forward));
    RowIsPlaced(r, 0, p);
    RowIsPlaced(r, 1, p);
    RowIsPlaced(r, 2, p);
    assert X.Apply(X.MatrixOf(r), v) ==
           X.Vec(X.Dot(X.RowAt(r, 0), v), X.Dot(X.RowAt(r, 1), v), X.Dot(X.RowAt(r, 2), v));
    var w := X.Plus(X.Apply(X.MatrixOf(r), v), X.VecOf(e.origin));
    assert Placed(e, p).forward == Num(w.x);
    assert Placed(e, p).right == Num(w.y);
    assert Placed(e, p).down == Num(w.z);
  }

  lemma BodyIsPlaced(e: X.Extrinsics, p: K.Point)
    requires X.Accepts(e)
    ensures X.ToBody(e, InCamera(p)) == X.Ok(Placed(e, p))
  {
    ApplyIsPlaced(e, p);
    assert X.CameraVec(InCamera(p)) == X.Vec(p.right, p.down, p.forward);
  }

  lemma {:induction false} TargetIsPlaced(o: Options, frames: seq<K.Frame>, now: Time)
    requires WellFormed(o) && o.extrinsics.Some?
    ensures TargetOf(o, K.Run(K.DEFAULT, frames), now) ==
            if TagInView(frames, now) then Some(Placed(o.extrinsics.value, SmoothedTag(frames))) else None
  {
    K.LockIsEarned(VISION, frames, now);
    K.TrackIsExplained(VISION, frames);
    if K.Hits(VISION, frames) != [] {
      BodyIsPlaced(o.extrinsics.value, SmoothedTag(frames));
    }
  }

  lemma PlacedIsFollowed(e: X.Extrinsics, p: K.Point)
    requires X.FiniteRotation(e.rotation) && X.FiniteBody(e.origin)
    ensures Guidance.Approved(Some(Placed(e, p))) <==> Placed(e, p).down.value > 0.0
  {
  }

  /** The frames of the run, this poll's included. */
  lemma {:induction false} TurnSeesFrames(o: Options, h: seq<Event>)
    requires h != [] && h[|h| - 1].Poll?
    ensures L.Turn(o, h).input.target == TargetOf(o, K.Run(K.DEFAULT, M.FramesOf(o, h)), h[|h| - 1].input.now)
  {
    var (l, p) := (LogsOf(o, h[..|h| - 1]), h[|h| - 1].input);
    M.FramesAreTracked(o, h);
    FramesUntouched(o, l, p);
  }

  lemma FramesUntouched(o: Options, l: Logs, p: PollInput)
    ensures L.Polled(o, l, p).frames == PollLogs(o, l, p).frames
  {
  }

  /** In every run the runtime is given a target if and only if a tag is in view, and
      the target is its smoothed place in body coordinates. */
  lemma {:induction false} TargetExactly(o: Options, h: seq<Event>)
    requires WellFormed(o) && o.extrinsics.Some? && h != [] && h[|h| - 1].Poll?
    ensures var (frames, now) := (M.FramesOf(o, h), h[|h| - 1].input.now);
            L.Turn(o, h).input.target ==
            if TagInView(frames, now) then Some(Placed(o.extrinsics.value, SmoothedTag(frames))) else None
  {
    TurnSeesFrames(o, h);
    TargetIsPlaced(o, M.FramesOf(o, h), h[|h| - 1].input.now);
  }

  /** So a look is approved if and only if a tag is in view and lies below the vehicle. */
  lemma {:induction false} ApprovedExactly(o: Options, h: seq<Event>)
    requires WellFormed(o) && o.extrinsics.Some? && h != [] && h[|h| - 1].Poll?
    ensures var (frames, now) := (M.FramesOf(o, h), h[|h| - 1].input.now);
            Guidance.Approved(L.Turn(o, h).input.target) <==>
            TagInView(frames, now) && Placed(o.extrinsics.value, SmoothedTag(frames)).down.value > 0.0
  {
    TargetExactly(o, h);
    var frames := M.FramesOf(o, h);
    if TagInView(frames, h[|h| - 1].input.now) {
      PlacedIsFollowed(o.extrinsics.value, SmoothedTag(frames));
    }
  }
}
