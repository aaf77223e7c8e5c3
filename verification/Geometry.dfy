/** Boxes and spheres of game/collision.cpp, over exact reals. */
module Geometry {

  datatype Vec3 = Vec3(x: real, y: real, z: real)

  function Abs(a: real): real { if a < 0.0 then -a else a }

  function Magnitude(v: Vec3): Vec3 { Vec3(Abs(v.x), Abs(v.y), Abs(v.z)) }

  function Max(a: real, b: real): real { if a < b then b else a }

  function Clamp(a: real, low: real, high: real): real
  {
    if a < low then low else if a > high then high else a
  }

  datatype BoundingBox = BoundingBox(center: Vec3, extent: Vec3) {

    static function FromCorners(low: Vec3, high: Vec3): BoundingBox
    {
      BoundingBox(
        Vec3((high.x + low.x) * 0.5, (high.y + low.y) * 0.5, (high.z + low.z) * 0.5),
        Vec3((high.x - low.x) * 0.5, (high.y - low.y) * 0.5, (high.z - low.z) * 0.5))
    }

    function Min(): Vec3
    {
      Vec3(center.x - extent.x, center.y - extent.y, center.z - extent.z)
    }

    function Max(): Vec3
    {
      Vec3(center.x + extent.x, center.y + extent.y, center.z + extent.z)
    }

    /** Flat in at least one direction. */
    predicate IsPoint()
    {
      extent.x == 0.0 || extent.y == 0.0 || extent.z == 0.0
    }

    predicate Contains(box: BoundingBox)
    {
      && Abs(center.x - box.center.x) <= extent.x - box.extent.x
      && Abs(center.y - box.center.y) <= extent.y - box.extent.y
      && Abs(center.z - box.center.z) <= extent.z - box.extent.z
    }

    predicate Intersects(box: BoundingBox)
    {
      && Abs(center.x - box.center.x) <= extent.x + box.extent.x
      && Abs(center.y - box.center.y) <= extent.y + box.extent.y
      && Abs(center.z - box.center.z) <= extent.z + box.extent.z
    }

    /** Min does not exceed Max: what `glm::clamp` demands of its bounds. */
    predicate Proper()
    {
      extent.x >= 0.0 && extent.y >= 0.0 && extent.z >= 0.0
    }

    /** The point `q` lies in the closed box. */
    predicate Covers(q: Vec3)
    {
      && center.x - extent.x <= q.x <= center.x + extent.x
      && center.y - extent.y <= q.y <= center.y + extent.y
      && center.z - extent.z <= q.z <= center.z + extent.z
    }
  }

  datatype BoundingSphere = BoundingSphere(center: Vec3, radius: real) {

    /** The point of the box nearest to the centre of the sphere. */
    function Closest(box: BoundingBox): Vec3
    {
      Vec3(Clamp(center.x, box.Min().x, box.Max().x),
           Clamp(center.y, box.Min().y, box.Max().y),
           Clamp(center.z, box.Min().z, box.Max().z))
    }

    /** `length(closest - center) <= radius`, with the square root cleared. */
    predicate Intersects(box: BoundingBox)
    {
      radius >= 0.0 && SquaredDistance(Closest(box), center) <= radius * radius
    }
  }

  function SquaredDistance(a: Vec3, b: Vec3): real
  {
    Square(a.x - b.x) + Square(a.y - b.y) + Square(a.z - b.z)
  }

  function Square(a: real): (s: real)
    ensures s >= 0.0
  {
    a * a
  }

  /** What a spatial query asks about: a box or a sphere. */
  datatype Probe = InBox(box: BoundingBox) | InSphere(sphere: BoundingSphere) {
    predicate Hits(other: BoundingBox)
    {
      match this
      case InBox(box) => box.Intersects(other)
      case InSphere(sphere) => sphere.Intersects(other)
    }
  }

  // ----- containment and intersection mean what they say about points

  lemma ContainsMeansSubset(outer: BoundingBox, inner: BoundingBox)
    requires inner.Proper()
    ensures outer.Contains(inner) <==> forall q: Vec3 :: inner.Covers(q) ==> outer.Covers(q)
  {
    if forall q: Vec3 :: inner.Covers(q) ==> outer.Covers(q) {
      assert outer.Covers(inner.Min()) && outer.Covers(inner.Max()) by {
        assert inner.Covers(inner.Min()) && inner.Covers(inner.Max());
      }
    }
  }

  lemma IntersectsMeansCommonPoint(a: BoundingBox, b: BoundingBox)
    requires a.Proper() && b.Proper()
    ensures a.Intersects(b) <==> exists q: Vec3 :: a.Covers(q) && b.Covers(q)
  {
    if a.Intersects(b) {
      var q := Vec3(Clamp(a.center.x, b.Min().x, b.Max().x),
                    Clamp(a.center.y, b.Min().y, b.Max().y),
                    Clamp(a.center.z, b.Min().z, b.Max().z));
      assert a.Covers(q) && b.Covers(q);
    }
  }

  lemma ScaleMonotone(k: real, a: real, b: real)
    requires 0.0 <= k && a <= b
    ensures k * a <= k * b
  {}

  lemma SquareMonotone(a: real, b: real)
    requires Abs(a) <= Abs(b)
    ensures Square(a) <= Square(b)
  {
    var x, y := Abs(a), Abs(b);
    ScaleMonotone(x, x, y);
    ScaleMonotone(y, x, y);
    calc {
      Square(a);
      x * x;
    <=
      x * y;
      y * x;
    <=
      y * y;
      Square(b);
    }
  }

  /** The clamp is the nearest point: no point of the box is closer. */
  lemma ClosestIsNearest(s: BoundingSphere, box: BoundingBox, q: Vec3)
    requires box.Proper() && box.Covers(q)
    ensures box.Covers(s.Closest(box))
    ensures SquaredDistance(s.Closest(box), s.center) <= SquaredDistance(q, s.center)
  {
    var c := s.Closest(box);
    SquareMonotone(c.x - s.center.x, q.x - s.center.x);
    SquareMonotone(c.y - s.center.y, q.y - s.center.y);
    SquareMonotone(c.z - s.center.z, q.z - s.center.z);
  }

  lemma SphereIntersectsMeansCommonPoint(s: BoundingSphere, box: BoundingBox)
    requires box.Proper() && s.radius >= 0.0
    ensures s.Intersects(box)
      <==> exists q: Vec3 :: box.Covers(q) && SquaredDistance(q, s.center) <= s.radius * s.radius
  {
    if s.Intersects(box) {
      ClosestIsNearest(s, box, box.center);
      assert box.Covers(s.Closest(box));
    }
    forall q: Vec3 | box.Covers(q) && SquaredDistance(q, s.center) <= s.radius * s.radius
      ensures s.Intersects(box)
    {
      ClosestIsNearest(s, box, q);
    }
  }

  /** Pruning is sound: a probe that misses the outer box misses every proper box inside it. */
  lemma HitsGrows(probe: Probe, outer: BoundingBox, inner: BoundingBox)
    requires outer.Contains(inner)
    requires probe.InSphere? ==> inner.Proper()
    requires probe.Hits(inner)
    ensures probe.Hits(outer)
  {
    if probe.InSphere? {
      var s := probe.sphere;
      ClosestIsNearest(s, inner, inner.center);
      ContainsMeansSubset(outer, inner);
      ClosestIsNearest(s, outer, s.Closest(inner));
    }
  }

  /** The point `q` lies inside the box and not on its surface. */
  predicate Inner(box: BoundingBox, q: Vec3)
  {
    && box.center.x - box.extent.x < q.x < box.center.x + box.extent.x
    && box.center.y - box.extent.y < q.y < box.center.y + box.extent.y
    && box.center.z - box.extent.z < q.z < box.center.z + box.extent.z
  }

  /** Flat boxes are those without an inner point. */
  lemma FlatMeansNoInnerPoint(box: BoundingBox)
    requires box.Proper()
    ensures box.IsPoint() <==> forall q: Vec3 :: !Inner(box, q)
  {
    assert !box.IsPoint() ==> Inner(box, box.center);
  }

  lemma ContainsTransitive(a: BoundingBox, b: BoundingBox, c: BoundingBox)
    requires a.Contains(b) && b.Contains(c)
    ensures a.Contains(c)
  {}

  // ----- octants

  type Corner = i: nat | i < 8

  predicate Right(corner: Corner) { corner == 1 || corner == 2 || corner == 5 || corner == 6 }

  predicate Upper(corner: Corner) { corner >= 4 }

  predicate Front(corner: Corner) { corner == 2 || corner == 3 || corner == 6 || corner == 7 }

  function Shift(at: real, forward: bool, step: real): real { if forward then at + step else at - step }

  /** The sub-box of half the size on the given side of the centre. */
  function Octant(r: BoundingBox, corner: Corner): BoundingBox
  {
    BoundingBox(
      Vec3(Shift(r.center.x, Right(corner), r.extent.x * 0.5),
           Shift(r.center.y, Upper(corner), r.extent.y * 0.5),
           Shift(r.center.z, Front(corner), r.extent.z * 0.5)),
      Vec3(r.extent.x * 0.5, r.extent.y * 0.5, r.extent.z * 0.5))
  }

  /** The sub-boxes as `BuildTree` and `Insert` list them, from the corners of the region. */
  function Octants(r: BoundingBox): (s: seq<BoundingBox>)
    ensures |s| == 8
    ensures forall k: Corner :: s[k] == Octant(r, k)
  {
    var low, high := r.Min(), r.Max();
    var mid := Vec3(low.x + r.extent.x, low.y + r.extent.y, low.z + r.extent.z);
    [ BoundingBox.FromCorners(low, mid),
      BoundingBox.FromCorners(Vec3(mid.x, low.y, low.z), Vec3(high.x, mid.y, mid.z)),
      BoundingBox.FromCorners(Vec3(mid.x, low.y, mid.z), Vec3(high.x, mid.y, high.z)),
      BoundingBox.FromCorners(Vec3(low.x, low.y, mid.z), Vec3(mid.x, mid.y, high.z)),
      BoundingBox.FromCorners(Vec3(low.x, mid.y, low.z), Vec3(mid.x, high.y, mid.z)),
      BoundingBox.FromCorners(Vec3(mid.x, mid.y, low.z), Vec3(high.x, high.y, mid.z)),
      BoundingBox.FromCorners(mid, high),
      BoundingBox.FromCorners(Vec3(low.x, mid.y, mid.z), Vec3(mid.x, high.y, high.z)) ]
  }

  lemma OctantHalves(r: BoundingBox, corner: Corner)
    ensures var e := Octant(r, corner).extent;
      e.x == r.extent.x * 0.5 && e.y == r.extent.y * 0.5 && e.z == r.extent.z * 0.5
    ensures r.Proper() ==> Octant(r, corner).Proper() && r.Contains(Octant(r, corner))
  {}

  /** The centres of the octants, corner by corner: bottom before top, and in each of them left back, right back, right
      front, left front. */
  lemma OctantTable(r: BoundingBox, k: Corner)
    ensures var c, x, y, z := r.center, r.extent.x * 0.5, r.extent.y * 0.5, r.extent.z * 0.5;
      Octant(r, k).center ==
        match k
        case 0 => Vec3(c.x - x, c.y - y, c.z - z)
        case 1 => Vec3(c.x + x, c.y - y, c.z - z)
        case 2 => Vec3(c.x + x, c.y - y, c.z + z)
        case 3 => Vec3(c.x - x, c.y - y, c.z + z)
        case 4 => Vec3(c.x - x, c.y + y, c.z - z)
        case 5 => Vec3(c.x + x, c.y + y, c.z - z)
        case 6 => Vec3(c.x + x, c.y + y, c.z + z)
        case 7 => Vec3(c.x - x, c.y + y, c.z + z)
  {}

  /** The octants tile the region: every point of it is in one of them. */
  lemma OctantsCover(r: BoundingBox, q: Vec3) returns (corner: Corner)
    requires r.Covers(q)
    ensures Octant(r, corner).Covers(q)
  {
    var c := r.center;
    corner :=
      if q.y <= c.y then
        if q.z <= c.z then (if q.x <= c.x then 0 else 1) else (if q.x <= c.x then 3 else 2)
      else
        if q.z <= c.z then (if q.x <= c.x then 4 else 5) else (if q.x <= c.x then 7 else 6);
  }

  /** A box with no flat side fits in at most one octant, so the order of the corners does not matter for it. */
  lemma OctantUnique(r: BoundingBox, i: Corner, j: Corner, box: BoundingBox)
    requires box.Proper() && !box.IsPoint()
    requires Octant(r, i).Contains(box) && Octant(r, j).Contains(box)
    ensures i == j
  {
    assert Right(i) == Right(j);
    assert Upper(i) == Upper(j);
    assert Front(i) == Front(j);
  }

  /** The first octant that contains the box, 8 when none does. */
  function FirstFit(r: BoundingBox, box: BoundingBox): (k: nat)
    ensures k <= 8
    ensures k < 8 ==> Octant(r, k).Contains(box)
    ensures forall i: Corner :: i < k ==> !Octant(r, i).Contains(box)
  {
    FitFrom(r, box, 0)
  }

  function FitFrom(r: BoundingBox, box: BoundingBox, from: nat): (k: nat)
    requires from <= 8
    requires forall i: Corner :: i < from ==> !Octant(r, i).Contains(box)
    ensures from <= k <= 8
    ensures k < 8 ==> Octant(r, k).Contains(box)
    ensures forall i: Corner :: i < k ==> !Octant(r, i).Contains(box)
    decreases 8 - from
  {
    if from == 8 then 8
    else if Octant(r, from).Contains(box) then from
    else FitFrom(r, box, from + 1)
  }

  // ----- the halving measure

  const SMALLEST_EXTENT := 1.0

  /** All extents are at most `sSmallestExtent`: such a region is never divided. */
  predicate Small(r: BoundingBox)
  {
    r.extent.x <= SMALLEST_EXTENT && r.extent.y <= SMALLEST_EXTENT && r.extent.z <= SMALLEST_EXTENT
  }

  /** Small regions are those that fit into a box with sides of length 2 around the same centre. */
  lemma SmallMeans(r: BoundingBox)
    ensures Small(r) <==> BoundingBox(r.center, Vec3(1.0, 1.0, 1.0)).Contains(r)
  {}

  function Weight(r: BoundingBox): nat
  {
    var m := Max(r.extent.x, Max(r.extent.y, r.extent.z));
    if m < 0.0 then 0 else m.Floor
  }

  lemma OctantLighter(r: BoundingBox, corner: Corner)
    requires !Small(r)
    ensures Weight(Octant(r, corner)) < Weight(r)
  {
    OctantHalves(r, corner);
    var m := Max(r.extent.x, Max(r.extent.y, r.extent.z));
    var e := Octant(r, corner).extent;
    assert Max(e.x, Max(e.y, e.z)) == m * 0.5;
    if m < 2.0 {
      assert (m * 0.5).Floor == 0;
    } else {
      assert m * 0.5 <= m - 1.0;
    }
  }
}
