/**
 * The clipping slab: from the clip state (axis, center, thickness index) two
 * opposite-facing half-space planes are built that together keep exactly the
 * points whose coordinate along the axis lies in [center - half, center + half].
 * A plane keeps the points whose signed distance `normal . p + constant` is
 * not negative.
 */
module Slab {
  import opened Constants

  datatype Vec3 = Vec3(x: real, y: real, z: real)

  datatype Plane = Plane(normal: Vec3, constant: real)

  datatype ClipState = ClipState(axis: Axis, center: real, thicknessIndex: int)

  /** The clip state the viewer starts with: x axis, center 0, thinnest step. */
  const InitialClipState: ClipState := ClipState(X, 0.0, 0)

  predicate ValidStep(idx: int)
  {
    0 <= idx < |ThicknessSteps|
  }

  /**
   * The thickness the planes use: the table entry at the index, or the first
   * entry when the index does not name one (no clamping).
   */
  function ThicknessFor(idx: int): (w: int)
    ensures !ValidStep(idx) ==> w == 10
  {
    if ValidStep(idx) then ThicknessSteps[idx] else ThicknessSteps[0]
  }

  /** Whatever the index, the thickness is an even, positive entry of the table. */
  lemma ThicknessIsEvenStep(idx: int)
    ensures ThicknessFor(idx) in ThicknessSteps
    ensures ThicknessFor(idx) > 0 && ThicknessFor(idx) % 2 == 0
  {
    Constants.ThicknessStepsEven();
  }

  /** The index the thickness label shows: the index clamped into the table. */
  function LabelIndex(idx: int): (i: nat)
    ensures i < |ThicknessSteps|
    ensures ValidStep(idx) ==> i == idx
    ensures idx < 0 ==> i == 0
    ensures idx >= |ThicknessSteps| ==> i == |ThicknessSteps| - 1
  {
    if idx < 0 then 0
    else if idx > |ThicknessSteps| - 1 then |ThicknessSteps| - 1
    else idx
  }

  /** The thickness the slider label displays. */
  function LabelThickness(idx: int): (w: int)
    ensures w in ThicknessSteps
  {
    ThicknessSteps[LabelIndex(idx)]
  }

  /**
   * The label and the planes agree on every index the table has; above the
   * table the label shows the thickest step while the planes fall back to the
   * thinnest one.
   */
  lemma LabelAndPlanesAgreeOnlyInRange(idx: int)
    ensures ValidStep(idx) ==> LabelThickness(idx) == ThicknessFor(idx)
    ensures idx >= |ThicknessSteps| ==> LabelThickness(idx) == 90000 && ThicknessFor(idx) == 10
    ensures idx < 0 ==> LabelThickness(idx) == ThicknessFor(idx) == 10
  {
  }

  function AxisNormal(a: Axis): Vec3
  {
    match a
    case X => Vec3(1.0, 0.0, 0.0)
    case Y => Vec3(0.0, 1.0, 0.0)
    case Z => Vec3(0.0, 0.0, 1.0)
  }

  /** The unit vector pointing against an axis: the axis normal negated (`AntiNormalNegates`). */
  function AntiNormal(a: Axis): Vec3
  {
    match a
    case X => Vec3(-1.0, 0.0, 0.0)
    case Y => Vec3(0.0, -1.0, 0.0)
    case Z => Vec3(0.0, 0.0, -1.0)
  }

  function Negate(v: Vec3): Vec3
  {
    Vec3(-v.x, -v.y, -v.z)
  }

  lemma AntiNormalNegates(a: Axis)
    ensures AntiNormal(a) == Negate(AxisNormal(a))
  {
    match a
    case X =>
    case Y =>
    case Z =>
  }

  function Dot(a: Vec3, b: Vec3): real
  {
    a.x * b.x + a.y * b.y + a.z * b.z
  }

  /** The coordinate of a point along an axis. */
  function Coord(p: Vec3, a: Axis): real
  {
    match a
    case X => p.x
    case Y => p.y
    case Z => p.z
  }

  function SignedDistance(pl: Plane, p: Vec3): real
  {
    Dot(pl.normal, p) + pl.constant
  }

  /** The lower and upper faces of the slab along its axis. */
  function SlabMin(s: ClipState): real
  {
    s.center - ThicknessFor(s.thicknessIndex) as real / 2.0
  }

  function SlabMax(s: ClipState): real
  {
    s.center + ThicknessFor(s.thicknessIndex) as real / 2.0
  }

  /**
   * The plane pair: the first faces along the axis and bounds the slab from
   * below, the second faces against it and bounds it from above.
   */
  function SlabPlanes(s: ClipState): (planes: seq<Plane>)
    ensures |planes| == 2
    ensures planes[0].normal == AxisNormal(s.axis) && planes[1].normal == AntiNormal(s.axis)
  {
    [Plane(AxisNormal(s.axis), -SlabMin(s)), Plane(AntiNormal(s.axis), SlabMax(s))]
  }

  /** The faces lie one thickness apart, centred on the center. */
  lemma SlabFaces(s: ClipState)
    ensures SlabMax(s) - SlabMin(s) == ThicknessFor(s.thicknessIndex) as real
    ensures SlabMin(s) + SlabMax(s) == 2.0 * s.center
    ensures SlabMin(s) < s.center < SlabMax(s)
  {
    ThicknessIsEvenStep(s.thicknessIndex);
  }

  lemma UnitDots(p: Vec3)
    ensures Dot(Vec3(1.0, 0.0, 0.0), p) == p.x
    ensures Dot(Vec3(0.0, 1.0, 0.0), p) == p.y
    ensures Dot(Vec3(0.0, 0.0, 1.0), p) == p.z
    ensures Dot(Vec3(-1.0, 0.0, 0.0), p) == -p.x
    ensures Dot(Vec3(0.0, -1.0, 0.0), p) == -p.y
    ensures Dot(Vec3(0.0, 0.0, -1.0), p) == -p.z
  {
  }

  /** Dotting with a unit axis vector picks the coordinate along that axis. */
  lemma DotWithAxis(a: Axis, p: Vec3)
    ensures Dot(AxisNormal(a), p) == Coord(p, a)
    ensures Dot(AntiNormal(a), p) == -Coord(p, a)
  {
    UnitDots(p);
    match a
    case X =>
    case Y =>
    case Z =>
  }

  /**
   * A point is kept by both planes exactly when its coordinate along the axis
   * lies between the slab faces, both inclusive.
   */
  lemma InsideSlabIff(s: ClipState, p: Vec3)
    ensures SignedDistance(SlabPlanes(s)[0], p) >= 0.0 && SignedDistance(SlabPlanes(s)[1], p) >= 0.0
        <==> SlabMin(s) <= Coord(p, s.axis) <= SlabMax(s)
  {
    DotWithAxis(s.axis, p);
  }

  /** A whole-number center gives whole-number faces, because every step is even. */
  lemma IntegralCenterIntegralFaces(s: ClipState, c: int)
    requires s.center == c as real
    ensures SlabMin(s) == (c - ThicknessFor(s.thicknessIndex) / 2) as real
    ensures SlabMax(s) == (c + ThicknessFor(s.thicknessIndex) / 2) as real
    ensures 2 * (ThicknessFor(s.thicknessIndex) / 2) == ThicknessFor(s.thicknessIndex)
  {
    ThicknessIsEvenStep(s.thicknessIndex);
  }

  /** Axis x, center 0, the thinnest step: the slab is exactly [-5, 5] along x. */
  lemma InitialSlab()
    ensures SlabMin(InitialClipState) == -5.0 && SlabMax(InitialClipState) == 5.0
    ensures SlabPlanes(InitialClipState) == [Plane(Vec3(1.0, 0.0, 0.0), 5.0), Plane(Vec3(-1.0, 0.0, 0.0), 5.0)]
  {
  }
}
