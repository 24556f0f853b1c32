/**
 * Colour-intensity remapping of the helium meshes. A colour buffer holds one
 * (r, g, b) triple per vertex, flattened. When the layer loads, a snapshot of
 * the buffer is kept; every intensity change recomputes the whole buffer from
 * that snapshot: reddish vertices (r > b) are pulled towards pure red,
 * bluish vertices (b > r) towards pure blue, by `t = factor - 1`, and
 * vertices with r == b are written back unchanged.
 */
module VertexColors {

  /** Linear interpolation from `x` to `y` by `t`, as the maths library writes it. */
  function Lerp(x: real, y: real, t: real): real
  {
    (1.0 - t) * x + t * y
  }

  datatype Rgb = Rgb(r: real, g: real, b: real)

  /** The new colour of one vertex for the shift `t`. */
  function RecolorVertex(c: Rgb, t: real): Rgb
  {
    if c.r > c.b then Rgb(Lerp(c.r, 1.0, t), Lerp(c.g, 0.0, t), Lerp(c.b, 0.0, t))
    else if c.b > c.r then Rgb(Lerp(c.r, 0.0, t), Lerp(c.g, 0.0, t), Lerp(c.b, 1.0, t))
    else c
  }

  /** The vertex whose channels sit at `3 * v`, `3 * v + 1`, `3 * v + 2`. */
  function VertexAt(buf: seq<real>, v: nat): Rgb
    requires 3 * v + 2 < |buf|
  {
    Rgb(buf[3 * v], buf[3 * v + 1], buf[3 * v + 2])
  }

  function Channel(c: Rgb, k: nat): real
    requires k < 3
  {
    if k == 0 then c.r else if k == 1 then c.g else c.b
  }

  /** The whole buffer an intensity `factor` produces from the snapshot. */
  function Recolored(original: seq<real>, factor: real): (colors: seq<real>)
    requires |original| % 3 == 0
    ensures |colors| == |original|
  {
    seq(|original|, i requires 0 <= i < |original| =>
      Channel(RecolorVertex(VertexAt(original, i / 3), factor - 1.0), i % 3))
  }

  /**
   * Writes `Recolored(original, factor)` into `colors` in place. The result
   * depends on the snapshot and the factor only, never on what the buffer held,
   * so calling it twice with the same factor leaves the same buffer.
   */
  method AdjustVertexColors(colors: array<real>, original: seq<real>, factor: real)
    requires colors.Length == |original| && |original| % 3 == 0
    modifies colors
    ensures colors[..] == Recolored(original, factor)
  {
    var t := factor - 1.0;
    var count := colors.Length / 3;
    ghost var target := Recolored(original, factor);
    var i := 0;
    while i < count
      invariant 0 <= i <= count && 3 * count == colors.Length
      invariant forall j :: 0 <= j < 3 * i ==> colors[j] == target[j]
    {
      var r, g, b := original[i * 3], original[i * 3 + 1], original[i * 3 + 2];
      ghost var want := RecolorVertex(Rgb(r, g, b), t);
      if r > b {
        r, g, b := Lerp(r, 1.0, t), Lerp(g, 0.0, t), Lerp(b, 0.0, t);
      } else if b > r {
        r, g, b := Lerp(r, 0.0, t), Lerp(g, 0.0, t), Lerp(b, 1.0, t);
      }
      assert Rgb(r, g, b) == want;
      RecoloredVertex(original, factor, i);
      ghost var done := colors[..3 * i];
      colors[i * 3], colors[i * 3 + 1], colors[i * 3 + 2] := r, g, b;
      assert colors[..3 * i] == done;
      i := i + 1;
    }
    assert colors[..] == target;
  }

  /** The three entries of vertex `v` in the recoloured buffer are the recoloured vertex. */
  lemma RecoloredVertex(original: seq<real>, factor: real, v: nat)
    requires |original| % 3 == 0 && 3 * v + 2 < |original|
    ensures VertexAt(Recolored(original, factor), v) == RecolorVertex(VertexAt(original, v), factor - 1.0)
  {
    assert (3 * v) / 3 == v && (3 * v + 1) / 3 == v && (3 * v + 2) / 3 == v;
    assert (3 * v) % 3 == 0 && (3 * v + 1) % 3 == 1 && (3 * v + 2) % 3 == 2;
  }

  /** Copies a colour buffer into the snapshot kept beside it when the layer loads. */
  method SnapshotColors(colors: array<real>) returns (original: seq<real>)
    ensures original == colors[..]
  {
    original := [];
    var i := 0;
    while i < colors.Length
      invariant 0 <= i <= colors.Length
      invariant original == colors[..i]
    {
      original := original + [colors[i]];
      i := i + 1;
    }
  }

  /** At factor 1 the buffer is exactly the snapshot. */
  lemma FactorOneRestoresSnapshot(original: seq<real>)
    requires |original| % 3 == 0
    ensures Recolored(original, 1.0) == original
  {
    forall i | 0 <= i < |original|
      ensures Recolored(original, 1.0)[i] == original[i]
    {
      ChannelOfVertex(original, i);
      RecolorAtZero(VertexAt(original, i / 3));
    }
  }

  /** A zero shift leaves every colour as it is. */
  lemma RecolorAtZero(c: Rgb)
    ensures RecolorVertex(c, 0.0) == c
  {
    LerpAtZero(c.r, 1.0);
    LerpAtZero(c.r, 0.0);
    LerpAtZero(c.g, 0.0);
    LerpAtZero(c.b, 0.0);
    LerpAtZero(c.b, 1.0);
  }

  lemma LerpAtZero(x: real, y: real)
    ensures Lerp(x, y, 0.0) == x
  {
    assert (1.0 - 0.0) * x == x;
    assert 0.0 * y == 0.0;
  }

  /** Channel `i % 3` of vertex `i / 3` is entry `i` of the flat buffer. */
  lemma ChannelOfVertex(buf: seq<real>, i: nat)
    requires |buf| % 3 == 0 && i < |buf|
    ensures 3 * (i / 3) + 2 < |buf|
    ensures Channel(VertexAt(buf, i / 3), i % 3) == buf[i]
  {
    assert i == 3 * (i / 3) + i % 3;
  }

  /** A vertex with equal red and blue keeps its snapshot colour at every factor. */
  lemma NeutralVertexKept(original: seq<real>, factor: real, v: nat)
    requires |original| % 3 == 0 && 3 * v + 2 < |original|
    requires original[3 * v] == original[3 * v + 2]
    ensures VertexAt(Recolored(original, factor), v) == VertexAt(original, v)
  {
    var c := VertexAt(Recolored(original, factor), v);
    assert c.r == Recolored(original, factor)[3 * v];
    assert (3 * v) / 3 == v && (3 * v + 1) / 3 == v && (3 * v + 2) / 3 == v;
  }

  /**
   * Above factor 1 a reddish vertex with channels in [0, 1] gains red and
   * loses green and blue; a bluish one gains blue and loses red and green.
   */
  lemma IntensityPushesToPrimary(original: seq<real>, factor: real, v: nat)
    requires |original| % 3 == 0 && 3 * v + 2 < |original|
    requires factor >= 1.0
    requires forall j :: 3 * v <= j <= 3 * v + 2 ==> 0.0 <= original[j] <= 1.0
    ensures var before, after := VertexAt(original, v), VertexAt(Recolored(original, factor), v);
      && (before.r > before.b ==> after.r >= before.r && after.g <= before.g && after.b <= before.b)
      && (before.b > before.r ==> after.b >= before.b && after.g <= before.g && after.r <= before.r)
  {
    var before := VertexAt(original, v);
    var t := factor - 1.0;
    assert (3 * v) / 3 == v && (3 * v + 1) / 3 == v && (3 * v + 2) / 3 == v;
    assert VertexAt(Recolored(original, factor), v) == RecolorVertex(before, t);
    assert 0.0 <= before.r <= 1.0 && 0.0 <= before.g <= 1.0 && 0.0 <= before.b <= 1.0;
    TowardsPrimary(before.r, 1.0, t);
    TowardsPrimary(before.g, 0.0, t);
    TowardsPrimary(before.b, 0.0, t);
    TowardsPrimary(before.r, 0.0, t);
    TowardsPrimary(before.b, 1.0, t);
  }

  lemma TowardsPrimary(x: real, y: real, t: real)
    requires t >= 0.0
    ensures x <= y ==> Lerp(x, y, t) >= x
    ensures x >= y ==> Lerp(x, y, t) <= x
  {
    assert Lerp(x, y, t) == x + t * (y - x);
    if x <= y {
      assert t * (y - x) >= 0.0;
    } else {
      assert t * (x - y) >= 0.0;
    }
  }
}
