/** Where objects live in an octree: paths from the top node, their regions, and the place an object is sent to. */
module Places {
  import opened Geometry
  import opened Options

  datatype Path = Top | Kid(up: Path, corner: Corner)

  function Depth(p: Path): nat
  {
    if p.Top? then 0 else Depth(p.up) + 1
  }

  /** `p` is `top` or lies underneath it. */
  predicate Below(top: Path, p: Path)
  {
    p == top || (p.Kid? && Below(top, p.up))
  }

  lemma BelowRefl(p: Path)
    ensures Below(p, p)
  {}

  function Region(world: BoundingBox, p: Path): BoundingBox
  {
    if p.Top? then world else Octant(Region(world, p.up), p.corner)
  }

  /** The shape of a tree: closed upwards, and only regions that are not small are divided. */
  ghost predicate Grown(world: BoundingBox, shape: set<Path>)
  {
    && Top in shape
    && forall p | p in shape && p.Kid? :: p.up in shape && !Small(Region(world, p.up))
  }

  /** The child of `top` on the way down to `p`. */
  function Toward(top: Path, p: Path): (k: Corner)
    requires Below(top, p) && p != top
    ensures Below(Kid(top, k), p)
  {
    if p.up == top then p.corner else Toward(top, p.up)
  }

  lemma {:induction false} BelowDeeper(top: Path, p: Path)
    requires Below(top, p)
    ensures Depth(top) <= Depth(p)
    ensures Depth(top) == Depth(p) ==> top == p
  {
    if p != top { BelowDeeper(top, p.up); }
  }

  lemma {:induction false} BelowTrans(a: Path, b: Path, c: Path)
    requires Below(a, b) && Below(b, c)
    ensures Below(a, c)
  {
    if b != c { BelowTrans(a, b, c.up); }
  }

  lemma {:induction false} BelowTop(p: Path)
    ensures Below(Top, p)
  {
    if p.Kid? { BelowTop(p.up); }
  }

  /** Two ancestors of one path lie on one line. */
  lemma {:induction false} BelowLinear(a: Path, b: Path, c: Path)
    requires Below(a, c) && Below(b, c)
    ensures Below(a, b) || Below(b, a)
  {
    if a != c && b != c { BelowLinear(a, b, c.up); }
  }

  /** The subtrees of the children are disjoint and do not hold the parent. */
  lemma {:induction false} KidsApart(top: Path, i: Corner, p: Path)
    requires Below(Kid(top, i), p)
    ensures Below(top, p) && p != top && Toward(top, p) == i
  {
    BelowTrans(top, Kid(top, i), p);
    BelowDeeper(Kid(top, i), p);
    if p != Kid(top, i) {
      KidsApart(top, i, p.up);
    }
  }

  lemma {:induction false} GrownAbove(world: BoundingBox, shape: set<Path>, top: Path, p: Path)
    requires Grown(world, shape) && p in shape && Below(top, p)
    ensures top in shape
    ensures p != top ==> Kid(top, Toward(top, p)) in shape && !Small(Region(world, top))
  {
    if p != top { GrownAbove(world, shape, top, p.up); }
  }

  lemma {:induction false} RegionNested(world: BoundingBox, top: Path, p: Path)
    requires world.Proper() && Below(top, p)
    ensures Region(world, p).Proper() && Region(world, top).Contains(Region(world, p))
  {
    if p == top {
      RegionProper(world, p);
    } else {
      RegionNested(world, top, p.up);
      OctantHalves(Region(world, p.up), p.corner);
      ContainsTransitive(Region(world, top), Region(world, p.up), Region(world, p));
    }
  }

  lemma {:induction false} RegionProper(world: BoundingBox, p: Path)
    requires world.Proper()
    ensures Region(world, p).Proper()
  {
    if p.Kid? {
      RegionProper(world, p.up);
      OctantHalves(Region(world, p.up), p.corner);
    }
  }

  lemma RegionLighter(world: BoundingBox, p: Path, k: Corner)
    requires !Small(Region(world, p))
    ensures Weight(Region(world, Kid(p, k))) < Weight(Region(world, p))
  {
    OctantLighter(Region(world, p), k);
  }

  /** The nodes outside the subtree at `p`. */
  ghost function Outside<T>(m: map<Path, T>, p: Path): map<Path, T>
  {
    map q | q in m && !Below(p, q) :: m[q]
  }

  lemma NotBelowKid(p: Path, k: Corner)
    ensures !Below(Kid(p, k), p) && !Below(Kid(p, k), Top) && Below(Kid(p, k), Kid(p, k)) && Kid(p, k) != p
  {
    if Below(Kid(p, k), p) { BelowDeeper(Kid(p, k), p); }
  }

  ghost function NotUnder(shape: set<Path>, p: Path): set<Path>
  {
    set q | q in shape && !Below(p, q)
  }

  lemma OutsideKeys<T>(m: map<Path, T>, p: Path)
    ensures Outside(m, p).Keys == NotUnder(m.Keys, p)
    ensures forall q <- Outside(m, p).Keys :: q in m && Outside(m, p)[q] == m[q]
  {}

  // ----- the place an inserted box is sent to

  /** Neither objects nor children: `mObjects.empty() && mActiveNodes == 0`. */
  ghost predicate Vacant<T>(m: map<Path, seq<T>>, p: Path)
  {
    p in m && m[p] == [] && forall i: Corner :: Kid(p, i) !in m
  }

  /** The nearest node at or above `p` whose region contains the box, the top node when there is none. */
  function Climb(world: BoundingBox, p: Path, box: BoundingBox): (q: Path)
    ensures Below(q, p)
    ensures q.Top? || Region(world, q).Contains(box)
    ensures forall u | Below(q, u) && Below(u, p) && u != q :: !Region(world, u).Contains(box)
  {
    if p.Top? || Region(world, p).Contains(box) then
      ClimbStops(p);
      p
    else
      var q := Climb(world, p.up, box);
      ClimbStep(q, p);
      q
  }

  lemma ClimbStops(p: Path)
    ensures forall u | Below(p, u) && Below(u, p) :: u == p
  {
    forall u | Below(p, u) && Below(u, p) ensures u == p {
      BelowDeeper(p, u);
      BelowDeeper(u, p);
    }
  }

  lemma ClimbStep(q: Path, p: Path)
    requires p.Kid? && Below(q, p.up)
    ensures forall u | Below(q, u) && Below(u, p) && u != p :: Below(u, p.up)
  {}

  /** Down from a node whose region contains the box, until the box rests. */
  ghost function Descend<T>(world: BoundingBox, m: map<Path, seq<T>>, p: Path, box: BoundingBox): Path
    decreases Weight(Region(world, p))
  {
    var r := Region(world, p);
    if Vacant(m, p) || Small(r) then p
    else
      var k := FirstFit(r, box);
      if k == 8 then p
      else if Kid(p, k) in m then
        OctantLighter(r, k);
        Descend(world, m, Kid(p, k), box)
      else Kid(p, k)
  }

  /** Where `Insert` at node `p` puts a box; `None` when it is rejected at the top. */
  ghost function Home<T>(world: BoundingBox, m: map<Path, seq<T>>, p: Path, box: BoundingBox): Option<Path>
  {
    if Vacant(m, p) || Small(Region(world, p)) then Some(p)
    else
      var q := Climb(world, p, box);
      if Region(world, q).Contains(box) then Some(Descend(world, m, q, box)) else None
  }

  /** The sequence at `p` with `x` appended; a new place starts empty. */
  ghost function Put<T>(m: map<Path, seq<T>>, p: Path, x: T): map<Path, seq<T>>
  {
    m[p := (if p in m then m[p] else []) + [x]]
  }

  /** The box may rest at `p`: the node is vacant or small, no octant contains the box, or the place is new. */
  ghost predicate Rests<T>(world: BoundingBox, m: map<Path, seq<T>>, p: Path, box: BoundingBox)
  {
    || p !in m
    || Vacant(m, p)
    || Small(Region(world, p))
    || forall i: Corner :: !Octant(Region(world, p), i).Contains(box)
  }

  /** The descent keeps the box inside, ends where the box rests, and every node passed on the way is occupied,
      not small, and sends the box to the first octant that contains it. */
  lemma {:induction false} DescendRests<T>(world: BoundingBox, m: map<Path, seq<T>>, p: Path, box: BoundingBox)
    requires Grown(world, m.Keys) && p in m
    ensures var d := Descend(world, m, p, box);
      && Below(p, d)
      && Rests(world, m, d, box)
      && (Region(world, p).Contains(box) ==> Region(world, d).Contains(box))
      && (d in m || (d.Kid? && d.up in m && !Small(Region(world, d.up)) && !Vacant(m, d.up)))
      && forall u | Below(p, u) && Below(u, d) && u != d ::
           !Vacant(m, u) && !Small(Region(world, u)) && FirstFit(Region(world, u), box) == Toward(u, d)
    decreases Weight(Region(world, p))
  {
    var r := Region(world, p);
    var d := Descend(world, m, p, box);
    var k := FirstFit(r, box);
    if Vacant(m, p) || Small(r) || k == 8 {
      ClimbStops(p);
    } else {
      OctantLighter(r, k);
      var kid := Kid(p, k);
      if kid in m {
        DescendRests(world, m, kid, box);
      } else {
        ClimbStops(kid);
      }
      KidsApart(p, k, d);
      forall u | Below(p, u) && Below(u, d) && u != d
        ensures !Vacant(m, u) && !Small(Region(world, u)) && FirstFit(Region(world, u), box) == Toward(u, d)
      {
        if u != p {
          BelowLinear(kid, u, d);
          if !Below(kid, u) {
            BelowDeeper(p, u);
            BelowDeeper(u, kid);
          }
        }
      }
    }
  }

  /** A place chosen by `Insert`: new places hang under an existing node that is neither vacant nor small. */
  lemma HomeShape<T>(world: BoundingBox, m: map<Path, seq<T>>, p: Path, box: BoundingBox)
    requires Grown(world, m.Keys) && p in m && Home(world, m, p, box).Some?
    ensures var h := Home(world, m, p, box).value;
      && Rests(world, m, h, box)
      && (h in m || (h.Kid? && h.up in m && !Small(Region(world, h.up)) && !Vacant(m, h.up)))
      && Grown(world, m.Keys + {h})
  {
    if !(Vacant(m, p) || Small(Region(world, p))) {
      var q := Climb(world, p, box);
      GrownAbove(world, m.Keys, q, p);
      DescendRests(world, m, q, box);
    }
  }

  /** The chosen region contains the box exactly when the starting node does or lets it climb. */
  lemma HomeContains<T>(world: BoundingBox, m: map<Path, seq<T>>, p: Path, box: BoundingBox)
    requires Grown(world, m.Keys) && p in m && Home(world, m, p, box).Some?
    ensures Region(world, Home(world, m, p, box).value).Contains(box)
      <==> Region(world, p).Contains(box) || !(Vacant(m, p) || Small(Region(world, p)))
  {
    if !(Vacant(m, p) || Small(Region(world, p))) {
      var q := Climb(world, p, box);
      GrownAbove(world, m.Keys, q, p);
      DescendRests(world, m, q, box);
    }
  }

  // ----- how `Insert` recurses

  lemma HomeHere<T>(world: BoundingBox, m: map<Path, seq<T>>, p: Path, box: BoundingBox)
    requires Vacant(m, p) || Small(Region(world, p))
    ensures Home(world, m, p, box) == Some(p)
  {}

  /** A box that does not fit is handed to the parent. */
  lemma HomeUp<T>(world: BoundingBox, m: map<Path, seq<T>>, p: Path, box: BoundingBox)
    requires Grown(world, m.Keys) && p in m && p.Kid?
    requires !Vacant(m, p) && !Small(Region(world, p)) && !Region(world, p).Contains(box)
    ensures p.up in m && Home(world, m, p, box) == Home(world, m, p.up, box)
  {
    assert Kid(p.up, p.corner) in m;
  }

  lemma HomeFits<T>(world: BoundingBox, m: map<Path, seq<T>>, p: Path, box: BoundingBox)
    requires Region(world, p).Contains(box)
    ensures Home(world, m, p, box).Some?
  {}

  /** The top node rejects it. */
  lemma HomeTop<T>(world: BoundingBox, m: map<Path, seq<T>>, p: Path, box: BoundingBox)
    requires p.Top? && !Vacant(m, p) && !Small(Region(world, p)) && !Region(world, p).Contains(box)
    ensures Home(world, m, p, box) == None
  {}

  /** A box that fits goes to the first child whose octant contains it. */
  lemma HomeDown<T>(world: BoundingBox, m: map<Path, seq<T>>, p: Path, box: BoundingBox)
    requires !Vacant(m, p) && !Small(Region(world, p)) && Region(world, p).Contains(box)
    ensures var k := FirstFit(Region(world, p), box);
      Home(world, m, p, box) ==
        if k == 8 then Some(p)
        else if Kid(p, k) in m then Home(world, m, Kid(p, k), box)
        else Some(Kid(p, k))
  {
    var k := FirstFit(Region(world, p), box);
    assert Climb(world, p, box) == p;
    if k < 8 && Kid(p, k) in m {
      var kid := Kid(p, k);
      assert Region(world, kid).Contains(box) && Climb(world, kid, box) == kid;
      assert Descend(world, m, p, box) == Descend(world, m, kid, box);
      assert Vacant(m, kid) || Small(Region(world, kid)) ==> Descend(world, m, kid, box) == kid;
    }
  }

  /** A box is rejected exactly when no region on the way up contains it and the starting node neither is vacant nor
      small. */
  lemma HomeRejects<T>(world: BoundingBox, m: map<Path, seq<T>>, p: Path, box: BoundingBox)
    requires world.Proper()
    ensures Home(world, m, p, box).None?
      <==> !Vacant(m, p) && !Small(Region(world, p)) && !world.Contains(box)
  {
    var q := Climb(world, p, box);
    BelowTop(q);
    RegionNested(world, Top, q);
    if Region(world, q).Contains(box) {
      ContainsTransitive(world, Region(world, q), box);
    }
  }
}
