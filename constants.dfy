/**
 * The literal tables the clipping slab reads: the slab thickness steps and
 * the per-axis range of the slab center.
 */
module Constants {

  /** Slab thicknesses selectable by the thickness slider, indexed by `thicknessIndex`. */
  const ThicknessSteps: seq<int> :=
    [10, 20, 40, 80, 150, 300, 600, 1200, 2500, 5000, 10000, 20000, 40000, 90000]

  /** The axis the slab is cut across. */
  datatype Axis = X | Y | Z

  datatype Range = Range(min: int, max: int)

  /** The range of the slab center along each axis (also the bounds of the center slider). */
  function AxisRange(a: Axis): (r: Range)
    ensures r.min < r.max
  {
    match a
    case X => Range(-20000, 70000)
    case Y => Range(-10000, 10000)
    case Z => Range(-45000, 45000)
  }

  /** The center the slab jumps to when its axis changes: the midpoint of the axis range. */
  function Midpoint(a: Axis): (m: real)
    ensures AxisRange(a).min as real < m < AxisRange(a).max as real
    ensures m - AxisRange(a).min as real == AxisRange(a).max as real - m
  {
    (AxisRange(a).min + AxisRange(a).max) as real / 2.0
  }

  /** The table has fourteen entries, runs from 10 to 90000 and is strictly ascending. */
  lemma ThicknessStepsAscending()
    ensures |ThicknessSteps| == 14
    ensures ThicknessSteps[0] == 10 && ThicknessSteps[|ThicknessSteps| - 1] == 90000
    ensures forall i, j :: 0 <= i < j < |ThicknessSteps| ==> ThicknessSteps[i] < ThicknessSteps[j]
  {
    forall i, j | 0 <= i < j < |ThicknessSteps|
      ensures ThicknessSteps[i] < ThicknessSteps[j]
    {
      StepsIncreaseFrom(i, j);
    }
  }

  lemma {:induction false} StepsIncreaseFrom(i: int, j: int)
    requires 0 <= i < j < |ThicknessSteps|
    ensures ThicknessSteps[i] < ThicknessSteps[j]
    decreases j - i
  {
    if j > i + 1 {
      StepsIncreaseFrom(i, j - 1);
    }
  }

  /** Every step is even and positive, so half a thickness is a whole number. */
  lemma ThicknessStepsEven()
    ensures forall i :: 0 <= i < |ThicknessSteps| ==> ThicknessSteps[i] > 0 && ThicknessSteps[i] % 2 == 0
  {
  }

  /** The three midpoints are x = 25000, y = 0, z = 0. */
  lemma AxisMidpoints()
    ensures Midpoint(X) == 25000.0 && Midpoint(Y) == 0.0 && Midpoint(Z) == 0.0
  {
  }
}
