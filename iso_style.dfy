/**
 * The material numbers each isosurface mesh receives from its rank in the
 * stack: `t = 1 - idx / (total - 1)`, opacity `0.15 + 0.5 t` and HSL hue
 * `0.6 - 0.6 t` (saturation 1.0, lightness 0.5).
 */
module IsoStyle {

  /** Number of precomputed isosurface levels (thresholds 1e-1 down to 1e-7). */
  const IsoLevelCount: nat := 7

  /** The rank fraction: 1 for the coarsest rank, 0 for the finest. */
  function RankFraction(idx: nat, total: nat): (t: real)
    requires idx < total && total >= 2
    ensures 0.0 <= t <= 1.0
    ensures idx == 0 ==> t == 1.0
    ensures idx == total - 1 ==> t == 0.0
  {
    DivBounds(idx as real, (total - 1) as real);
    1.0 - idx as real / (total - 1) as real
  }

  function Opacity(idx: nat, total: nat): (o: real)
    requires idx < total && total >= 2
    ensures 0.15 <= o <= 0.65
  {
    0.15 + 0.5 * RankFraction(idx, total)
  }

  function Hue(idx: nat, total: nat): (h: real)
    requires idx < total && total >= 2
    ensures 0.0 <= h <= 0.6
  {
    0.6 - 0.6 * RankFraction(idx, total)
  }

  /** Fixed HSL saturation and lightness of every isosurface colour. */
  const IsoSaturation: real := 1.0
  const IsoLightness: real := 0.5

  lemma DivBounds(a: real, b: real)
    requires 0.0 <= a <= b && b > 0.0
    ensures 0.0 <= a / b <= 1.0
    ensures a == 0.0 ==> a / b == 0.0
    ensures a == b ==> a / b == 1.0
  {
  }

  lemma DivStrictlyMonotone(a: real, c: real, b: real)
    requires 0.0 <= a < c && b > 0.0
    ensures a / b < c / b
  {
    assert (c - a) / b > 0.0;
    assert c / b - a / b == (c - a) / b;
  }

  /**
   * In the stack of seven the coarsest rank is drawn at opacity 0.65 with hue
   * 0.0, the finest at opacity 0.15 with hue 0.6.
   */
  lemma StackEndpoints()
    ensures Opacity(0, IsoLevelCount) == 0.65 && Hue(0, IsoLevelCount) == 0.0
    ensures Opacity(IsoLevelCount - 1, IsoLevelCount) == 0.15 && Hue(IsoLevelCount - 1, IsoLevelCount) == 0.6
  {
  }

  /** A finer rank is strictly more transparent and has a strictly larger hue. */
  lemma OpacityDecreasesHueIncreases(i: nat, j: nat, total: nat)
    requires i < j < total && total >= 2
    ensures Opacity(j, total) < Opacity(i, total)
    ensures Hue(i, total) < Hue(j, total)
  {
    DivStrictlyMonotone(i as real, j as real, (total - 1) as real);
  }

  /** Opacity falls by five sixths of what hue gains, so either one determines the other. */
  lemma OpacityHueLinked(idx: nat, total: nat)
    requires idx < total && total >= 2
    ensures Opacity(idx, total) == 0.65 - 5.0 / 6.0 * Hue(idx, total)
  {
  }
}
