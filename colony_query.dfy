/**
 * The box query over the colony-target cloud. The cloud's point buffer and the
 * metadata table are co-indexed: point `i` is described by metadata entry `i`.
 * The query walks the buffer in order and reports every point the box contains
 * (faces included), with the metadata id at the same index when there is one,
 * and with the x and z coordinates swapped in the report, as the viewer writes
 * them.
 */
module ColonyQuery {
  import opened Wrappers
  import opened Slab

  datatype Box = Box(min: Vec3, max: Vec3)

  /** One metadata entry; only the 64-bit system id is read. */
  datatype Meta = Meta(systemId64: int)

  /** One reported point: the id and the reported coordinates. */
  datatype Hit = Hit(id64: Option<int>, x: real, y: real, z: real)

  predicate Contains(box: Box, p: Vec3)
  {
    && box.min.x <= p.x <= box.max.x
    && box.min.y <= p.y <= box.max.y
    && box.min.z <= p.z <= box.max.z
  }

  /** The report for point `i`: x and z swapped, id absent past the end of the table. */
  function HitAt(points: seq<Vec3>, meta: seq<Meta>, i: nat): Hit
    requires i < |points|
  {
    Hit(if i < |meta| then Some(meta[i].systemId64) else None, points[i].z, points[i].y, points[i].x)
  }

  /** The reports for the first `n` points of the buffer, in buffer order. */
  function HitsUpTo(points: seq<Vec3>, meta: seq<Meta>, box: Box, n: nat): (hits: seq<Hit>)
    requires n <= |points|
    ensures |hits| <= n
  {
    if n == 0 then []
    else HitsUpTo(points, meta, box, n - 1)
         + (if Contains(box, points[n - 1]) then [HitAt(points, meta, n - 1)] else [])
  }

  /**
   * The box query. With no cloud loaded the answer is empty; otherwise every
   * contained point is reported in buffer order.
   */
  method AnalyzePointsInBox(cloud: Option<seq<Vec3>>, colonyMeta: seq<Meta>, box: Box)
    returns (pointsInside: seq<Hit>)
    ensures cloud.None? ==> pointsInside == []
    ensures cloud.Some? ==> pointsInside == HitsUpTo(cloud.value, colonyMeta, box, |cloud.value|)
  {
    if cloud.None? {
      return [];
    }
    var positions := cloud.value;
    pointsInside := [];
    var i := 0;
    while i < |positions|
      invariant 0 <= i <= |positions|
      invariant pointsInside == HitsUpTo(positions, colonyMeta, box, i)
    {
      var worldPos := positions[i];
      if Contains(box, worldPos) {
        var id := if i < |colonyMeta| then Some(colonyMeta[i].systemId64) else None;
        pointsInside := pointsInside + [Hit(id, worldPos.z, worldPos.y, worldPos.x)];
      }
      i := i + 1;
    }
  }

  /**
   * A report is in the answer exactly when it is the report of some point the
   * box contains.
   */
  lemma {:induction false} HitsUpToMembers(points: seq<Vec3>, meta: seq<Meta>, box: Box, n: nat, h: Hit)
    requires n <= |points|
    ensures h in HitsUpTo(points, meta, box, n)
        <==> exists i :: 0 <= i < n && Contains(box, points[i]) && h == HitAt(points, meta, i)
  {
    if n > 0 {
      HitsUpToMembers(points, meta, box, n - 1, h);
      var last := if Contains(box, points[n - 1]) then [HitAt(points, meta, n - 1)] else [];
      assert HitsUpTo(points, meta, box, n) == HitsUpTo(points, meta, box, n - 1) + last;
      if exists i :: 0 <= i < n && Contains(box, points[i]) && h == HitAt(points, meta, i) {
        var i :| 0 <= i < n && Contains(box, points[i]) && h == HitAt(points, meta, i);
        if i == n - 1 {
          assert h in last;
        }
      }
    }
  }

  /** Every point of the buffer is reported when the box contains them all. */
  lemma {:induction false} AllInsideAllReported(points: seq<Vec3>, meta: seq<Meta>, box: Box, n: nat)
    requires n <= |points|
    requires forall i :: 0 <= i < n ==> Contains(box, points[i])
    ensures |HitsUpTo(points, meta, box, n)| == n
  {
    if n > 0 {
      AllInsideAllReported(points, meta, box, n - 1);
    }
  }

  /**
   * Two co-indexed points, ids 1 and 2, at the origin and at x = 100: a box of
   * half-width 10 around the origin reports the first point only, with id 1.
   */
  lemma TwoPointScenario()
    ensures HitsUpTo([Vec3(0.0, 0.0, 0.0), Vec3(100.0, 0.0, 0.0)], [Meta(1), Meta(2)],
                     Box(Vec3(-10.0, -10.0, -10.0), Vec3(10.0, 10.0, 10.0)), 2)
         == [Hit(Some(1), 0.0, 0.0, 0.0)]
  {
    var points := [Vec3(0.0, 0.0, 0.0), Vec3(100.0, 0.0, 0.0)];
    var meta := [Meta(1), Meta(2)];
    var box := Box(Vec3(-10.0, -10.0, -10.0), Vec3(10.0, 10.0, 10.0));
    assert HitsUpTo(points, meta, box, 1) == [Hit(Some(1), 0.0, 0.0, 0.0)];
    assert !Contains(box, points[1]);
  }
}
