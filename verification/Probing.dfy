/** What the spatial queries find, and when that is what a linear scan of the stored objects finds. */
module Probing {
  import opened Geometry
  import opened GameObjects
  import opened Places
  import opened Totals

  predicate Accepted(o: GameObject, types: seq<nat>)
  {
    types == [] || o.noun in types
  }

  predicate Matching(o: GameObject, probe: Probe, types: seq<nat>)
    reads o`box
  {
    Accepted(o, types) && probe.Hits(o.box)
  }

  /** The matching objects of a sequence, in their order: a linear scan. */
  function Scan(objects: seq<GameObject>, probe: Probe, types: seq<nat>): (s: seq<GameObject>)
    reads (set o | o in objects)`box
  {
    if objects == [] then []
    else
      var n := |objects| - 1;
      Scan(objects[..n], probe, types) + if Matching(objects[n], probe, types) then [objects[n]] else []
  }

  /** A query that starts at `p` gets to `q`: every node on the way is built and, below `p`, its region is hit. */
  ghost predicate Reached(world: BoundingBox, live: set<Path>, p: Path, q: Path, probe: Probe)
  {
    q in live && (q == p || (q.Kid? && probe.Hits(Region(world, q)) && Reached(world, live, p, q.up, probe)))
  }

  /** What a query that starts at `p` finds, node by node. */
  ghost function Finds(world: BoundingBox, m: map<Path, seq<GameObject>>, live: set<Path>, p: Path,
                       probe: Probe, types: seq<nat>): map<Path, seq<GameObject>>
    reads (set q, o | q in m && o in m[q] :: o)`box
  {
    map q | q in m && Reached(world, live, p, q, probe) :: Scan(m[q], probe, types)
  }

  /** The same without what is under the corners from `n` on. */
  ghost function FindsUpTo(world: BoundingBox, m: map<Path, seq<GameObject>>, live: set<Path>, p: Path,
                           probe: Probe, types: seq<nat>, n: nat): map<Path, seq<GameObject>>
    reads (set q, o | q in m && o in m[q] :: o)`box
  {
    map q | q in m && Reached(world, live, p, q, probe) && (q == p || !Below(p, q) || Toward(p, q) < n)
      :: Scan(m[q], probe, types)
  }

  lemma {:induction false} ReachedBelow(world: BoundingBox, live: set<Path>, p: Path, q: Path, probe: Probe)
    requires Reached(world, live, p, q, probe)
    ensures Below(p, q) && p in live
  {
    if q != p { ReachedBelow(world, live, p, q.up, probe); }
  }

  /** To get to a node under child `k` is to get to the child and on from there. */
  lemma {:induction false} ReachedThrough(world: BoundingBox, live: set<Path>, p: Path, k: Corner, q: Path,
                                          probe: Probe)
    requires Below(Kid(p, k), q)
    ensures Reached(world, live, p, q, probe)
      <==> p in live && probe.Hits(Region(world, Kid(p, k))) && Reached(world, live, Kid(p, k), q, probe)
  {
    hide Region;
    NotBelowKid(p, k);
    KidsApart(p, k, q);
    if q != Kid(p, k) {
      ReachedThrough(world, live, p, k, q.up, probe);
    } else {
      assert Reached(world, live, p, p, probe) <==> p in live;
    }
  }

  lemma FindsStart(world: BoundingBox, m: map<Path, seq<GameObject>>, live: set<Path>, p: Path,
                   probe: Probe, types: seq<nat>)
    requires p in m
    ensures p in live ==> FindsUpTo(world, m, live, p, probe, types, 0) == map[p := Scan(m[p], probe, types)]
    ensures p !in live ==> Finds(world, m, live, p, probe, types) == map[]
    ensures FindsUpTo(world, m, live, p, probe, types, 8) == Finds(world, m, live, p, probe, types)
  {
    hide Region, Scan, Below;
    forall q | q in m && Reached(world, live, p, q, probe) ensures Below(p, q) && p in live {
      ReachedBelow(world, live, p, q, probe);
    }
  }

  lemma FindsStep(world: BoundingBox, m: map<Path, seq<GameObject>>, live: set<Path>, p: Path,
                  probe: Probe, types: seq<nat>, k: Corner)
    requires Grown(world, m.Keys) && p in m && p in live
    ensures Total(FindsUpTo(world, m, live, p, probe, types, k + 1)) ==
      Total(FindsUpTo(world, m, live, p, probe, types, k)) +
      if Kid(p, k) in m && probe.Hits(Region(world, Kid(p, k)))
      then Total(Finds(world, m, live, Kid(p, k), probe, types)) else multiset{}
  {
    hide Region, Scan, Small, Total;
    var kid := Kid(p, k);
    var now, next := FindsUpTo(world, m, live, p, probe, types, k), FindsUpTo(world, m, live, p, probe, types, k + 1);
    var sub := Finds(world, m, live, kid, probe, types);
    forall q | q in m
      ensures Reached(world, live, p, q, probe) ==> Below(p, q)
      ensures Below(kid, q) <==> Below(p, q) && q != p && Toward(p, q) == k
      ensures Below(kid, q) ==> kid in m
      ensures Reached(world, live, kid, q, probe) ==> Below(kid, q)
      ensures Below(kid, q) ==> (Reached(world, live, p, q, probe)
        <==> probe.Hits(Region(world, kid)) && Reached(world, live, kid, q, probe))
    {
      FindsStepAt(world, m, live, p, probe, k, q);
    }
    FindsSplit(world, m, live, p, probe, types, k);
    hide Below, Reached, Finds, FindsUpTo;
    if kid in m && probe.Hits(Region(world, kid)) {
      TotalUnion(now, sub);
    }
  }

  lemma FindsSplit(world: BoundingBox, m: map<Path, seq<GameObject>>, live: set<Path>, p: Path,
                   probe: Probe, types: seq<nat>, k: Corner)
    requires forall q <- m.Keys :: Reached(world, live, p, q, probe) ==> Below(p, q)
    requires forall q <- m.Keys :: Below(Kid(p, k), q) <==> Below(p, q) && q != p && Toward(p, q) == k
    requires forall q <- m.Keys :: Below(Kid(p, k), q) ==> Kid(p, k) in m
    requires forall q <- m.Keys :: Reached(world, live, Kid(p, k), q, probe) ==> Below(Kid(p, k), q)
    requires forall q <- m.Keys :: Below(Kid(p, k), q) ==> (Reached(world, live, p, q, probe)
      <==> probe.Hits(Region(world, Kid(p, k))) && Reached(world, live, Kid(p, k), q, probe))
    ensures var now, next := FindsUpTo(world, m, live, p, probe, types, k),
      FindsUpTo(world, m, live, p, probe, types, k + 1);
      var sub := Finds(world, m, live, Kid(p, k), probe, types);
      if Kid(p, k) in m && probe.Hits(Region(world, Kid(p, k))) then next == now + sub && now.Keys !! sub.Keys
        else next == now
  {
    hide Below, Reached, Region, Scan;
  }

  lemma FindsStepAt(world: BoundingBox, m: map<Path, seq<GameObject>>, live: set<Path>, p: Path,
                    probe: Probe, k: Corner, q: Path)
    requires Grown(world, m.Keys) && p in m && p in live && q in m
    ensures Reached(world, live, p, q, probe) ==> Below(p, q)
    ensures Below(Kid(p, k), q) <==> Below(p, q) && q != p && Toward(p, q) == k
    ensures Below(Kid(p, k), q) ==> Kid(p, k) in m
    ensures Reached(world, live, Kid(p, k), q, probe) ==> Below(Kid(p, k), q)
    ensures Below(Kid(p, k), q) ==> (Reached(world, live, p, q, probe)
      <==> probe.Hits(Region(world, Kid(p, k))) && Reached(world, live, Kid(p, k), q, probe))
  {
    hide Region, Small;
    if Reached(world, live, p, q, probe) { ReachedBelow(world, live, p, q, probe); }
    if Reached(world, live, Kid(p, k), q, probe) { ReachedBelow(world, live, Kid(p, k), q, probe); }
    if Below(Kid(p, k), q) {
      KidsApart(p, k, q);
      ReachedThrough(world, live, p, k, q, probe);
      GrownAbove(world, m.Keys, Kid(p, k), q);
    }
  }

  /** A node without children. */
  lemma {:induction false} FindsLeaf(world: BoundingBox, m: map<Path, seq<GameObject>>, live: set<Path>, p: Path,
                                     probe: Probe, types: seq<nat>, n: nat)
    requires Grown(world, m.Keys) && p in m && p in live && n <= 8
    requires forall k: Corner :: Kid(p, k) !in m
    ensures Total(FindsUpTo(world, m, live, p, probe, types, n)) == Total(FindsUpTo(world, m, live, p, probe, types, 0))
  {
    hide Grown, FindsUpTo, Total, Region;
    if n > 0 {
      FindsStep(world, m, live, p, probe, types, n - 1);
      FindsLeaf(world, m, live, p, probe, types, n - 1);
    }
  }

  // ----- exactness

  /** Below the top, every stored object lies inside the region of its node. */
  ghost predicate Held(world: BoundingBox, m: map<Path, seq<GameObject>>)
    reads (set q, o | q in m && o in m[q] :: o)`box
  {
    forall q <- m.Keys | q != Top :: forall o <- m[q] :: Region(world, q).Contains(o.box)
  }

  /** Below the top, every stored flat object lies inside the region of its node. */
  ghost predicate FlatHeld(world: BoundingBox, m: map<Path, seq<GameObject>>)
    reads (set q, o | q in m && o in m[q] :: o)`box
  {
    forall q <- m.Keys | q != Top :: forall o <- m[q] | o.box.IsPoint() :: Region(world, q).Contains(o.box)
  }

  /** Every node that holds objects is built, and so are the nodes above it. */
  ghost predicate Open(m: map<Path, seq<GameObject>>, live: set<Path>)
  {
    forall q, u | q in m && m[q] != [] && Below(u, q) :: u in live
  }

  /** A fully built tree is open. */
  lemma BuiltOpen(world: BoundingBox, m: map<Path, seq<GameObject>>, live: set<Path>)
    requires Grown(world, m.Keys) && m.Keys <= live
    ensures Open(m, live)
  {
    hide Small, Region;
    forall q, u | q in m && m[q] != [] && Below(u, q) ensures u in live { GrownAbove(world, m.Keys, u, q); }
  }

  lemma {:induction false} ReachedOpen(world: BoundingBox, live: set<Path>, q: Path, u: Path, probe: Probe)
    requires Reached(world, live, Top, q, probe) && Below(u, q)
    ensures u in live
  {
    hide Region;
    if u != q { ReachedOpen(world, live, q.up, u, probe); }
  }

  ghost predicate AllProper(m: map<Path, seq<GameObject>>)
    reads (set q, o | q in m && o in m[q] :: o)`box
  {
    forall q <- m.Keys :: forall o <- m[q] :: o.box.Proper()
  }

  /** The objects of a tree that are hit and of one of the types, if any are given. */
  ghost function Wanted(m: map<Path, seq<GameObject>>, probe: Probe, types: seq<nat>): set<GameObject>
    reads (set q, o | q in m && o in m[q] :: o)`box
  {
    set q, o |
      && q in m && o in m[q] && probe.Hits(o.box)
      && (types == [] || exists i | 0 <= i < |types| :: types[i] == o.noun)
      :: o
  }

  lemma {:induction false} ScanSelects(objects: seq<GameObject>, probe: Probe, types: seq<nat>, keep: set<GameObject>)
    requires forall o <- objects :: o in keep <==> Matching(o, probe, types)
    ensures Selects(multiset(objects), keep, multiset(Scan(objects, probe, types)))
  {
    if objects != [] {
      var n := |objects| - 1;
      ScanSelects(objects[..n], probe, types, keep);
      assert objects == objects[..n] + [objects[n]];
      var last := if Matching(objects[n], probe, types) then [objects[n]] else [];
      SelectsSum(multiset(objects[..n]), multiset{objects[n]}, keep, multiset(Scan(objects[..n], probe, types)),
                 multiset(last));
    }
  }

  /** A node the query does not get to holds nothing that matches, if the tree is open and the objects are held. */
  lemma {:induction false} UnreachedBarren(world: BoundingBox, m: map<Path, seq<GameObject>>, live: set<Path>,
                                           probe: Probe, q: Path, u: Path)
    requires world.Proper() && Grown(world, m.Keys) && Held(world, m) && (probe.InSphere? ==> AllProper(m))
    requires Open(m, live) && q in m && Below(u, q) && !Reached(world, live, Top, u, probe)
    ensures forall o <- m[q] :: !probe.Hits(o.box)
  {
    hide Small;
    GrownAbove(world, m.Keys, u, q);
    if m[q] == [] { return; }
    if u.Kid? && Reached(world, live, Top, u.up, probe) {
      RegionNested(world, u, q);
      assert !probe.Hits(Region(world, u));
      forall o <- m[q] ensures !probe.Hits(o.box) {
        if q == Top { BelowDeeper(u, q); }
        ContainsTransitive(Region(world, u), Region(world, q), o.box);
        if probe.Hits(o.box) { HitsGrows(probe, Region(world, u), o.box); }
      }
    } else if u.Kid? {
      BelowTrans(u.up, u, q);
      UnreachedBarren(world, m, live, probe, q, u.up);
    }
  }

  /** What is found at one node, nothing where the query does not get. */
  ghost function FoundAt(found: map<Path, seq<GameObject>>, q: Path): seq<GameObject>
  {
    if q in found then found[q] else []
  }

  /** At every node the query finds what a scan of that node finds. */
  lemma FindsSelects(world: BoundingBox, m: map<Path, seq<GameObject>>, live: set<Path>, probe: Probe,
                     types: seq<nat>, q: Path)
    requires world.Proper() && Grown(world, m.Keys) && Held(world, m) && Open(m, live) && q in m
    requires probe.InSphere? ==> AllProper(m)
    ensures Selects(multiset(m[q]), Wanted(m, probe, types),
                    multiset(FoundAt(Finds(world, m, live, Top, probe, types), q)))
  {
    hide Region, Small, Grown, Held, AllProper;
    if Reached(world, live, Top, q, probe) {
      ScanSelects(m[q], probe, types, Wanted(m, probe, types));
    } else {
      BelowRefl(q);
      UnreachedBarren(world, m, live, probe, q, q);
      forall o <- m[q] ensures o !in Wanted(m, probe, types) {}
    }
  }

  lemma TotalPadded(m: map<Path, seq<GameObject>>, found: map<Path, seq<GameObject>>)
    requires found.Keys <= m.Keys
    ensures Total(map q | q in m :: FoundAt(found, q)) == Total(found)
  {
    var rest := map q | q in m && q !in found :: FoundAt(found, q);
    assert (map q | q in m :: FoundAt(found, q)) == found + rest;
    hide Total;
    TotalUnion(found, rest);
    TotalEmpty(rest);
  }

  /** Pruning loses nothing: from the top of an open tree whose objects are held by their regions, a query
      finds exactly what a linear scan of all stored objects finds, each object as often as it is stored. */
  lemma QueryExact(world: BoundingBox, m: map<Path, seq<GameObject>>, live: set<Path>, probe: Probe, types: seq<nat>)
    requires world.Proper() && Grown(world, m.Keys) && Held(world, m) && Open(m, live)
    requires probe.InSphere? ==> AllProper(m)
    ensures Selects(Total(m), Wanted(m, probe, types), Total(Finds(world, m, live, Top, probe, types)))
  {
    var keep := Wanted(m, probe, types);
    var found := Finds(world, m, live, Top, probe, types);
    TotalPadded(m, found);
    hide Region, Small, Grown, Held, AllProper, Finds, Wanted, Selects, Total, FoundAt;
    var all := map q | q in m :: FoundAt(found, q);
    forall q <- m.Keys ensures Selects(multiset(m[q]), keep, multiset(all[q])) {
      FindsSelects(world, m, live, probe, types, q);
    }
    TotalSelects(m, keep, all);
  }

  /** The same object by object: a query finds an object as often as it is stored if it hits its box and its type is one
      of those given, or none is given, and otherwise not at all. */
  lemma QueryFinds(world: BoundingBox, m: map<Path, seq<GameObject>>, live: set<Path>, probe: Probe, types: seq<nat>,
                   o: GameObject)
    requires world.Proper() && Grown(world, m.Keys) && Held(world, m) && Open(m, live)
    requires probe.InSphere? ==> AllProper(m)
    ensures Total(Finds(world, m, live, Top, probe, types))[o] ==
      if probe.Hits(o.box) && (types == [] || exists i | 0 <= i < |types| :: types[i] == o.noun) then Total(m)[o] else 0
  {
    hide Region, Grown, Held, Open, AllProper, Finds, Total;
    QueryExact(world, m, live, probe, types);
    if o in Total(m) { TotalFrom(m, o); }
    forall q <- m.Keys | o in m[q] ensures o in Total(m) { TotalHas(m, q, o); }
  }

  /** At a single node, wherever the query starts: what a reached node holds is found under the same condition. */
  lemma NodeFinds(world: BoundingBox, m: map<Path, seq<GameObject>>, live: set<Path>, p: Path, probe: Probe,
                  types: seq<nat>, q: Path, o: GameObject)
    requires q in Finds(world, m, live, p, probe, types)
    ensures multiset(Finds(world, m, live, p, probe, types)[q])[o] ==
      if probe.Hits(o.box) && (types == [] || exists i | 0 <= i < |types| :: types[i] == o.noun) then multiset(m[q])[o]
      else 0
  {
    ScanCounts(m[q], probe, types, o);
  }

  lemma {:induction false} ScanMatching(objects: seq<GameObject>, probe: Probe, types: seq<nat>, o: GameObject)
    ensures multiset(Scan(objects, probe, types))[o] == if Matching(o, probe, types) then multiset(objects)[o] else 0
  {
    hide Matching;
    if objects != [] {
      var n := |objects| - 1;
      ScanMatching(objects[..n], probe, types, o);
      assert objects == objects[..n] + [objects[n]];
    }
  }

  lemma ScanCounts(objects: seq<GameObject>, probe: Probe, types: seq<nat>, o: GameObject)
    ensures multiset(Scan(objects, probe, types))[o] ==
      if probe.Hits(o.box) && (types == [] || exists i | 0 <= i < |types| :: types[i] == o.noun)
      then multiset(objects)[o] else 0
  {
    ScanMatching(objects, probe, types, o);
    hide Scan;
  }

  // ----- the converse: a misplaced object can be missed

  /** A box that meets the given box, even one turned inside out, and misses the region unless that contains the box. */
  function Stray(region: BoundingBox, box: BoundingBox): BoundingBox
  {
    var c, e := box.center, box.extent;
    var outer := Vec3(Max(e.x, 0.0), Max(e.y, 0.0), Max(e.z, 0.0));
    var at :=
      if Abs(region.center.x - c.x) > region.extent.x - e.x then
        Vec3(Shift(c.x, region.center.x < c.x, outer.x), c.y, c.z)
      else if Abs(region.center.y - c.y) > region.extent.y - e.y then
        Vec3(c.x, Shift(c.y, region.center.y < c.y, outer.y), c.z)
      else
        Vec3(c.x, c.y, Shift(c.z, region.center.z < c.z, outer.z));
    BoundingBox(at, Vec3(outer.x - e.x, outer.y - e.y, outer.z - e.z))
  }

  lemma StrayEscapes(region: BoundingBox, box: BoundingBox)
    ensures var probe := InBox(Stray(region, box));
      probe.Hits(box) && (probe.Hits(region) ==> region.Contains(box))
  {}

  /** A box query that meets the given box. */
  function Touching(box: BoundingBox): BoundingBox
  {
    BoundingBox(box.center, Vec3(Abs(box.extent.x), Abs(box.extent.y), Abs(box.extent.z)))
  }

  /** Every box query without types agrees with the linear scan. */
  ghost predicate AllExact(world: BoundingBox, m: map<Path, seq<GameObject>>, live: set<Path>)
    reads (set q, o | q in m && o in m[q] :: o)`box
  {
    forall box: BoundingBox ::
      Selects(Total(m), Wanted(m, InBox(box), []), Total(Finds(world, m, live, Top, InBox(box), [])))
  }

  /** Every query agrees with the linear scan; one by a sphere, if no stored box is turned inside out. */
  ghost predicate EveryExact(world: BoundingBox, m: map<Path, seq<GameObject>>, live: set<Path>)
    reads (set q, o | q in m && o in m[q] :: o)`box
  {
    forall probe: Probe, types: seq<nat> | probe.InSphere? ==> AllProper(m) ::
      Selects(Total(m), Wanted(m, probe, types), Total(Finds(world, m, live, Top, probe, types)))
  }

  /** The condition is sharp: all box queries agree with the linear scan exactly when every stored object below the
      top lies inside the region of its node and no object sits in or under a node that is not built; then all other
      queries agree too. */
  lemma QueryExactIff(world: BoundingBox, m: map<Path, seq<GameObject>>, live: set<Path>)
    requires world.Proper() && Grown(world, m.Keys)
    ensures AllExact(world, m, live) <==> Held(world, m) && Open(m, live)
    ensures EveryExact(world, m, live) <==> Held(world, m) && Open(m, live)
  {
    hide Region, Selects, Finds, Wanted, Grown, Held, Open, AllProper;
    if AllExact(world, m, live) {
      ExactHeld(world, m, live);
      ExactOpen(world, m, live);
    }
    if Held(world, m) && Open(m, live) {
      forall probe: Probe, types: seq<nat> | probe.InSphere? ==> AllProper(m)
        ensures Selects(Total(m), Wanted(m, probe, types), Total(Finds(world, m, live, Top, probe, types)))
      {
        QueryExact(world, m, live, probe, types);
      }
    }
  }

  lemma ExactHeld(world: BoundingBox, m: map<Path, seq<GameObject>>, live: set<Path>)
    requires AllExact(world, m, live)
    ensures Held(world, m)
  {
    hide Region, Selects, Finds, Wanted;
    forall q <- m.Keys | q != Top
      ensures forall o <- m[q] :: Region(world, q).Contains(o.box)
    {
      forall o <- m[q] ensures Region(world, q).Contains(o.box) {
        var box := Stray(Region(world, q), o.box);
        StrayEscapes(Region(world, q), o.box);
        assert Selects(Total(m), Wanted(m, InBox(box), []), Total(Finds(world, m, live, Top, InBox(box), [])));
        FoundAsStored(world, m, live, q, o, InBox(box));
        assert InBox(box).Hits(Region(world, q));
      }
    }
  }

  lemma ExactOpen(world: BoundingBox, m: map<Path, seq<GameObject>>, live: set<Path>)
    requires AllExact(world, m, live)
    ensures Open(m, live)
  {
    hide Region, Selects, Finds, Wanted;
    forall q, u | q in m && m[q] != [] && Below(u, q) ensures u in live {
      var o := m[q][0];
      var box := Touching(o.box);
      assert o in m[q] && InBox(box).Hits(o.box);
      assert Selects(Total(m), Wanted(m, InBox(box), []), Total(Finds(world, m, live, Top, InBox(box), [])));
      FoundAsStored(world, m, live, q, o, InBox(box));
      ReachedOpen(world, live, q, u, InBox(box));
    }
  }

  /** An object that is found as often as it is stored sits in nodes that the query gets to when its box is hit. */
  lemma FoundAsStored(world: BoundingBox, m: map<Path, seq<GameObject>>, live: set<Path>, q: Path, o: GameObject,
                      probe: Probe)
    requires q in m && o in m[q] && probe.Hits(o.box)
    requires Selects(Total(m), Wanted(m, probe, []), Total(Finds(world, m, live, Top, probe, [])))
    ensures Reached(world, live, Top, q, probe)
  {
    hide Region;
    var found := Finds(world, m, live, Top, probe, []);
    assert Matching(o, probe, []);
    assert o in Wanted(m, probe, []);
    TotalWithout(m, q);
    TotalHas(m, q, o);
    assert Total(found)[o] == Total(m)[o];
    assert multiset(m[q])[o] > 0;
    if q !in found {
      FoundNoMore(m - {q}, found, probe, o);
    }
  }

  lemma {:induction false} FoundNoMore(m: map<Path, seq<GameObject>>, found: map<Path, seq<GameObject>>, probe: Probe,
                                       o: GameObject)
    requires found.Keys <= m.Keys
    requires forall q <- found.Keys :: found[q] == Scan(m[q], probe, [])
    ensures Total(found)[o] <= Total(m)[o]
    decreases |found|
  {
    if found != map[] {
      var q :| q in found;
      FoundNoMore(m - {q}, found - {q}, probe, o);
      TotalWithout(found, q);
      TotalWithout(m, q);
      ScanNoMore(m[q], probe, [], o);
    }
  }

  lemma {:induction false} ScanNoMore(objects: seq<GameObject>, probe: Probe, types: seq<nat>, o: GameObject)
    ensures multiset(Scan(objects, probe, types))[o] <= multiset(objects)[o]
  {
    if objects != [] {
      var n := |objects| - 1;
      ScanNoMore(objects[..n], probe, types, o);
      assert objects == objects[..n] + [objects[n]];
    }
  }

  lemma ScanPush(objects: seq<GameObject>, i: nat, probe: Probe, types: seq<nat>)
    requires i < |objects|
    ensures Scan(objects[..i + 1], probe, types)
      == Scan(objects[..i], probe, types) + if Matching(objects[i], probe, types) then [objects[i]] else []
  {
    assert objects[..i + 1][..i] == objects[..i];
  }

  // ----- triggers

  /** Every stored object. */
  ghost function Members(m: map<Path, seq<GameObject>>): set<GameObject>
  {
    set q, o | q in m && o in m[q] :: o
  }

  predicate ActiveTrigger(t: GameObject)
    reads t`box
  {
    t.isTrigger && !t.box.IsPoint()
  }

  /** The trigger reacts to the object. */
  predicate Interacts(t: GameObject, o: GameObject)
    reads t, o`box
  {
    ActiveTrigger(t) && !o.isTrigger && o != t.owner && t.box.Intersects(o.box)
  }

  /** What the box query of a trigger finds from the top. */
  ghost function Seen(world: BoundingBox, m: map<Path, seq<GameObject>>, live: set<Path>,
                      t: GameObject): multiset<GameObject>
    reads t`box, (set q, o | q in m && o in m[q] :: o)`box
  {
    Total(Finds(world, m, live, Top, InBox(t.box), []))
  }

  lemma {:induction false} ScanSound(objects: seq<GameObject>, probe: Probe, types: seq<nat>)
    ensures forall o <- Scan(objects, probe, types) :: o in objects && Matching(o, probe, types)
  {
    if objects != [] {
      ScanSound(objects[..|objects| - 1], probe, types);
    }
  }

  lemma SeenStored(world: BoundingBox, m: map<Path, seq<GameObject>>, live: set<Path>, t: GameObject, o: GameObject)
    requires o in Seen(world, m, live, t)
    ensures o in Members(m) && t.box.Intersects(o.box)
  {
    var found := Finds(world, m, live, Top, InBox(t.box), []);
    TotalFrom(found, o);
    var q :| q in found && o in found[q];
    ScanSound(m[q], InBox(t.box), []);
  }

  /** In an open tree that holds its objects, a trigger sees exactly the stored objects its box intersects. */
  lemma SeenExact(world: BoundingBox, m: map<Path, seq<GameObject>>, live: set<Path>, t: GameObject, o: GameObject)
    requires world.Proper() && Grown(world, m.Keys) && Held(world, m) && Open(m, live)
    ensures o in Seen(world, m, live, t) <==> o in Members(m) && t.box.Intersects(o.box)
  {
    hide Region, Small, Grown, Finds, Held;
    QueryExact(world, m, live, InBox(t.box), []);
    if o in Seen(world, m, live, t) {
      SeenStored(world, m, live, t, o);
    }
    if o in Members(m) && t.box.Intersects(o.box) {
      var q :| q in m && o in m[q];
      TotalHas(m, q, o);
      assert Matching(o, InBox(t.box), []);
      assert o in Wanted(m, InBox(t.box), []);
    }
  }

  type Meeting = (GameObject, GameObject)

  /** From position `start` on, only stored triggers paired with stored objects they react to. */
  ghost predicate Fair(pairs: seq<Meeting>, start: nat, members: set<GameObject>)
    reads (set x | x in pairs :: x.0), (set x | x in pairs :: x.1)
  {
    forall i | start <= i < |pairs| ::
      pairs[i].0 in members && pairs[i].1 in members && Interacts(pairs[i].0, pairs[i].1)
  }

  /** Every object the trigger has seen and may react to is paired with it. */
  ghost predicate Answered(t: GameObject, seen: multiset<GameObject>, pairs: seq<Meeting>)
    reads t`owner
  {
    forall o <- seen :: !o.isTrigger && o != t.owner ==> (t, o) in pairs
  }

  /** All the active triggers stored at or below `p` are answered. */
  ghost predicate AllAnswered(world: BoundingBox, m: map<Path, seq<GameObject>>, live: set<Path>, p: Path,
                              pairs: seq<Meeting>)
    reads Members(m)
  {
    forall q <- m.Keys | Below(p, q) :: forall t <- m[q] | ActiveTrigger(t) ::
      Answered(t, Seen(world, m, live, t), pairs)
  }

  /** The same at `p` itself and under its first `n` corners. */
  ghost predicate AnsweredUpTo(world: BoundingBox, m: map<Path, seq<GameObject>>, live: set<Path>, p: Path,
                               pairs: seq<Meeting>, n: nat)
    reads Members(m)
  {
    forall q <- m.Keys | Below(p, q) && (q == p || Toward(p, q) < n) :: forall t <- m[q] | ActiveTrigger(t) ::
      Answered(t, Seen(world, m, live, t), pairs)
  }

  lemma AnsweredMore(t: GameObject, seen: multiset<GameObject>, pairs: seq<Meeting>, more: seq<Meeting>)
    requires Answered(t, seen, pairs) && pairs <= more
    ensures Answered(t, seen, more)
  {
    assert forall x <- pairs :: x in more;
  }

  lemma AnsweredStart(world: BoundingBox, m: map<Path, seq<GameObject>>, live: set<Path>, p: Path, pairs: seq<Meeting>)
    requires p in m
    requires forall t <- m[p] | ActiveTrigger(t) :: Answered(t, Seen(world, m, live, t), pairs)
    ensures AnsweredUpTo(world, m, live, p, pairs, 0)
  {
    hide Seen, Below, Answered, ActiveTrigger;
  }

  lemma AnsweredStep(world: BoundingBox, m: map<Path, seq<GameObject>>, live: set<Path>, p: Path,
                     pairs: seq<Meeting>, more: seq<Meeting>, k: Corner)
    requires Grown(world, m.Keys) && p in m && pairs <= more
    requires AnsweredUpTo(world, m, live, p, pairs, k)
    requires Kid(p, k) in m ==> AllAnswered(world, m, live, Kid(p, k), more)
    ensures AnsweredUpTo(world, m, live, p, more, k + 1)
  {
    hide Seen, ActiveTrigger, Region, Small;
    forall q <- m.Keys, t | Below(p, q) && (q == p || Toward(p, q) < k + 1) && t in m[q] && ActiveTrigger(t)
      ensures Answered(t, Seen(world, m, live, t), more)
    {
      if q != p && Toward(p, q) == k {
        GrownAbove(world, m.Keys, Kid(p, k), q);
        hide Answered;
        assert Below(Kid(p, k), q);
      } else {
        assert Answered(t, Seen(world, m, live, t), pairs);
        assert forall x <- pairs :: x in more;
      }
    }
  }

  /** When no child is left, all is answered. */
  lemma AnsweredEnd(world: BoundingBox, m: map<Path, seq<GameObject>>, live: set<Path>, p: Path, pairs: seq<Meeting>,
                    n: nat)
    requires Grown(world, m.Keys) && p in m
    requires AnsweredUpTo(world, m, live, p, pairs, n)
    requires forall k: Corner | n <= k :: Kid(p, k) !in m
    ensures AllAnswered(world, m, live, p, pairs)
  {
    hide Seen, Answered, ActiveTrigger, Region, Small;
    forall q <- m.Keys | Below(p, q) ensures q == p || Toward(p, q) < n {
      GrownAbove(world, m.Keys, p, q);
    }
  }

  /** From the top of an open tree that holds its objects, the reported pairs are exactly the stored triggers that are
      not flat with the stored objects that are no triggers, not their owner, and intersect them. */
  lemma InteractionsExact(world: BoundingBox, m: map<Path, seq<GameObject>>, live: set<Path>, pairs: seq<Meeting>,
                          t: GameObject, o: GameObject)
    requires world.Proper() && Grown(world, m.Keys) && Held(world, m) && Open(m, live)
    requires Fair(pairs, 0, Members(m)) && AllAnswered(world, m, live, Top, pairs)
    ensures (t, o) in pairs <==> t in Members(m) && o in Members(m) && Interacts(t, o)
    ensures (t, o) in pairs <==>
      && (exists q <- m.Keys :: t in m[q]) && (exists q <- m.Keys :: o in m[q])
      && t.isTrigger && t.box.extent.x != 0.0 && t.box.extent.y != 0.0 && t.box.extent.z != 0.0
      && !o.isTrigger && t.owner != o && t.box.Intersects(o.box)
  {
    hide Region, Small, Grown, Seen, Held;
    if t in Members(m) && o in Members(m) && Interacts(t, o) {
      SeenExact(world, m, live, t, o);
      var q :| q in m && t in m[q];
      BelowTop(q);
      assert Answered(t, Seen(world, m, live, t), pairs);
    }
  }

  /** The pairs noted at one trigger: what it met is added with state 0, what it knew before keeps its state. */
  ghost predicate Noted(t: GameObject, before: map<GameObject, nat>, after: map<GameObject, nat>, pairs: seq<Meeting>)
  {
    && after.Keys == before.Keys + (set x | x in pairs && x.0 == t :: x.1)
    && (forall o <- before.Keys :: after[o] == before[o])
    && forall o <- after.Keys - before.Keys :: after[o] == 0
  }

  lemma NotedPush(t: GameObject, before: map<GameObject, nat>, after: map<GameObject, nat>, pairs: seq<Meeting>,
                  x: Meeting)
    requires Noted(t, before, after, pairs)
    ensures x.0 != t ==> Noted(t, before, after, pairs + [x])
    ensures x.0 == t ==> Noted(t, before, if x.1 in after then after else after[x.1 := 0], pairs + [x])
  {
    var more := pairs + [x];
    forall o | o in more && o.0 == t ensures o in pairs || o == x {}
    forall o <- pairs ensures o in more {}
    assert x in more;
  }

  /** What a trigger knows after the interactions were noted: exactly what it knew and what it reacts to. */
  lemma KnownExact(world: BoundingBox, m: map<Path, seq<GameObject>>, live: set<Path>, pairs: seq<Meeting>,
                   t: GameObject, before: map<GameObject, nat>, after: map<GameObject, nat>)
    requires world.Proper() && Grown(world, m.Keys) && Held(world, m) && Open(m, live)
    requires Fair(pairs, 0, Members(m)) && AllAnswered(world, m, live, Top, pairs) && Noted(t, before, after, pairs)
    requires t in Members(m)
    ensures after.Keys == before.Keys + set o | o in Members(m) && Interacts(t, o)
  {
    hide Region, Small, Grown, Held, Open, AllAnswered, Fair, Interacts, Members;
    var met := set o | o in Members(m) && Interacts(t, o);
    forall o | o in met ensures o in after {
      InteractionsExact(world, m, live, pairs, t, o);
      assert (t, o).0 == t && (t, o).1 == o;
    }
    forall o | o in after && o !in before ensures o in met {
      var x :| x in pairs && x.0 == t && x.1 == o;
      assert x == (t, o);
      InteractionsExact(world, m, live, pairs, t, o);
    }
    assert forall o | o in after :: o in before || o in met;
    assert after.Keys == before.Keys + met;
  }
}
