/** The arithmetic of the lift-off transition: the cubic ease-out curve and
    the pose (height, scale, two opacities) it drives. Pure functions; the
    class in module Bubble writes their values into its fields. */
module Easing {

  /** Length of the lift-off, in seconds. */
  const LiftDur: real := 2.5
  /** World units the bubble climbs during the lift-off. */
  const LiftDist: real := 15.0
  /** Uniform scale the bubble shrinks to. */
  const FinalScale: real := 0.1
  /** Opacity of the inner carrier sphere before any fading. */
  const CarrierOpacity: real := 0.03

  /** The third power, `Math.pow(x, 3)`; it keeps the sign of x. */
  function Cube(x: real): (c: real)
    ensures x > 0.0 ==> c > 0.0
    ensures x < 0.0 ==> c < 0.0
    ensures x == 0.0 ==> c == 0.0
  {
    x * x * x
  }

  /** `Math.max`: the larger of the two. */
  function Max(a: real, b: real): (m: real)
    ensures m >= a && m >= b && (m == a || m == b)
  {
    if a >= b then a else b
  }

  lemma CubeUnit(c: real)
    requires 0.0 <= c <= 1.0
    ensures 0.0 <= Cube(c) <= 1.0
    ensures c > 0.0 ==> Cube(c) > 0.0
    ensures c < 1.0 ==> Cube(c) < 1.0
  {
    assert 0.0 <= c * c <= c;
    assert c * c * c <= c * c;
  }

  /** The cube is monotone on all of the reals. */
  lemma CubeMonotone(a: real, b: real)
    requires a <= b
    ensures Cube(a) <= Cube(b)
  {
    // b^3 - a^3 == (b - a) * (a^2 + a*b + b^2), and the second factor is a sum of squares
    var s := a * a + a * b + b * b;
    assert 4.0 * s == (2.0 * a + b) * (2.0 * a + b) + 3.0 * b * b;
    var u := 2.0 * a + b;
    assert u * u >= 0.0 && b * b >= 0.0;
    assert s >= 0.0;
    assert Cube(b) - Cube(a) == (b - a) * s;
  }

  /** Cubic ease-out `1 - (1 - p)^3`: starts at 0, ends at 1, and stays
      below 1 until the end. */
  function EaseOut(p: real): (e: real)
    ensures 0.0 <= p <= 1.0 ==> 0.0 <= e <= 1.0
    ensures 0.0 <= p < 1.0 ==> e < 1.0
    ensures 0.0 < p <= 1.0 ==> 0.0 < e
    ensures p == 0.0 ==> e == 0.0
    ensures p == 1.0 ==> e == 1.0
  {
    if 0.0 <= p <= 1.0 then CubeUnit(1.0 - p); 1.0 - Cube(1.0 - p)
    else 1.0 - Cube(1.0 - p)
  }

  /** The ease-out never decreases as progress advances. */
  lemma EaseOutMonotone(p: real, q: real)
    requires p <= q
    ensures EaseOut(p) <= EaseOut(q)
  {
    CubeMonotone(1.0 - q, 1.0 - p);
  }

  /** Group height, uniform scale, carrier opacity and film opacity. */
  datatype Pose = Pose(y: real, scale: real, carrierOpacity: real, filmOpacity: real)

  /** The pose the bubble is built with, anchored at height startY. */
  function RestPose(startY: real): Pose {
    Pose(startY, 1.0, CarrierOpacity, 1.0)
  }

  /** The pose for an eased progress value: climb, shrink and fade together. */
  function EasedPose(startY: real, eased: real): (p: Pose)
    ensures 0.0 <= eased <= 1.0 ==>
      startY <= p.y <= startY + LiftDist &&
      FinalScale <= p.scale <= 1.0 &&
      0.0 <= p.filmOpacity <= 1.0 &&
      0.0 <= p.carrierOpacity <= CarrierOpacity
  {
    Pose(startY + LiftDist * eased,
         1.0 - (1.0 - FinalScale) * eased,
         Max(0.0, CarrierOpacity * (1.0 - eased)),
         Max(0.0, 1.0 - eased))
  }

  /** The pose a tick shows while the lift-off is still running,
      `elapsed` seconds after it began. */
  function LiftPose(startY: real, elapsed: real): (p: Pose)
    ensures 0.0 <= elapsed < LiftDur ==>
      startY <= p.y < startY + LiftDist &&
      FinalScale < p.scale <= 1.0 &&
      0.0 < p.filmOpacity <= 1.0 &&
      0.0 < p.carrierOpacity <= CarrierOpacity
    ensures elapsed == 0.0 ==> p == RestPose(startY)
  {
    EasedPose(startY, EaseOut(elapsed / LiftDur))
  }

  /** The pose pinned once the lift-off has run its course. */
  function FinalPose(startY: real): (p: Pose)
    ensures p == EasedPose(startY, 1.0)
  {
    Pose(startY + LiftDist, FinalScale, 0.0, 0.0)
  }

  /** The pinned final pose is the one the easing curve reaches at full
      progress, so completing the lift-off causes no visible jump. */
  lemma FinalPoseEndsCurve(startY: real)
    ensures FinalPose(startY) == EasedPose(startY, EaseOut(1.0))
  {
  }

  /** The pose a lifting bubble shows `elapsed` seconds into the lift-off. */
  function PoseAt(startY: real, elapsed: real): (p: Pose)
    ensures 0.0 <= elapsed ==>
      startY <= p.y <= startY + LiftDist &&
      FinalScale <= p.scale <= 1.0 &&
      0.0 <= p.filmOpacity <= 1.0 &&
      0.0 <= p.carrierOpacity <= CarrierOpacity
    ensures LiftDur <= elapsed ==> p == FinalPose(startY)
  {
    if elapsed < LiftDur then LiftPose(startY, elapsed) else FinalPose(startY)
  }

  /** For a fixed start, as time advances the bubble only rises, only shrinks
      and only fades, up to and including the pinned final pose. */
  lemma PoseAtMonotone(startY: real, e1: real, e2: real)
    requires 0.0 <= e1 <= e2
    ensures PoseAt(startY, e1).y <= PoseAt(startY, e2).y
    ensures PoseAt(startY, e1).scale >= PoseAt(startY, e2).scale
    ensures PoseAt(startY, e1).carrierOpacity >= PoseAt(startY, e2).carrierOpacity
    ensures PoseAt(startY, e1).filmOpacity >= PoseAt(startY, e2).filmOpacity
  {
    if e2 < LiftDur {
      EaseOutMonotone(e1 / LiftDur, e2 / LiftDur);
      var a, b := EaseOut(e1 / LiftDur), EaseOut(e2 / LiftDur);
      assert CarrierOpacity * (1.0 - a) >= CarrierOpacity * (1.0 - b);
    }
  }
}
