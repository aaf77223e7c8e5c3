/** What `BuildTree` makes of the objects of one node. */
module Building {
  import opened Geometry
  import opened GameObjects
  import opened Places
  import opened Totals

  /** The boxes of the objects as they are while the tree is updated. */
  type Boxes = map<GameObject, BoundingBox>

  function BoxOf(boxes: Boxes, o: GameObject): BoundingBox
  {
    if o in boxes then boxes[o] else BoundingBox(Vec3(0.0, 0.0, 0.0), Vec3(0.0, 0.0, 0.0))
  }

  /** The octant `BuildTree` moves an object to, 8 when the object stays: flat boxes always stay. */
  function Slot(boxes: Boxes, r: BoundingBox, o: GameObject): (k: nat)
    ensures k <= 8
  {
    if BoxOf(boxes, o).IsPoint() then 8 else FirstFit(r, BoxOf(boxes, o))
  }

  function Slots(boxes: Boxes, r: BoundingBox, objects: seq<GameObject>): (s: seq<nat>)
    ensures |s| == |objects|
    ensures forall i | 0 <= i < |s| :: s[i] == Slot(boxes, r, objects[i])
  {
    if objects == [] then []
    else
      var n := |objects| - 1;
      Slots(boxes, r, objects[..n]) + [Slot(boxes, r, objects[n])]
  }

  /** The objects that belong in slot `k`, in their order. */
  function Fitting(boxes: Boxes, r: BoundingBox, objects: seq<GameObject>, k: nat): (s: seq<GameObject>)
    ensures forall o <- s :: o in objects && Slot(boxes, r, o) == k
    ensures forall o <- objects :: Slot(boxes, r, o) == k ==> o in s
  {
    PickFrom(objects, Slots(boxes, r, objects), k);
    Pick(objects, Slots(boxes, r, objects), k)
  }

  /** The order is kept: a further object comes last in its slot. */
  lemma FittingMore(boxes: Boxes, r: BoundingBox, objects: seq<GameObject>, o: GameObject, k: nat)
    ensures Fitting(boxes, r, objects + [o], k) ==
      Fitting(boxes, r, objects, k) + if Slot(boxes, r, o) == k then [o] else []
  {
    hide Slot;
    assert (objects + [o])[..|objects|] == objects;
    var slots := Slots(boxes, r, objects);
    assert Slots(boxes, r, objects + [o]) == slots + [Slot(boxes, r, o)];
    assert (slots + [Slot(boxes, r, o)])[..|objects|] == slots;
  }

  /** `BuildTree` leaves the node alone: its only object is inside the region, or the region is small. */
  predicate Settled(boxes: Boxes, r: BoundingBox, objects: seq<GameObject>)
  {
    (|objects| == 1 && r.Contains(BoxOf(boxes, objects[0]))) || Small(r)
  }

  /** The corners `BuildTree` assigns a new child to. */
  ghost predicate Fills(boxes: Boxes, r: BoundingBox, objects: seq<GameObject>, k: Corner)
  {
    !Settled(boxes, r, objects) && Fitting(boxes, r, objects, k) != []
  }

  /** The subtree built from the objects of the node at `p`. */
  ghost function Built(boxes: Boxes, world: BoundingBox, p: Path, objects: seq<GameObject>): map<Path, seq<GameObject>>
    decreases Weight(Region(world, p)), 9
  {
    var r := Region(world, p);
    if Settled(boxes, r, objects) then map[p := objects]
    else map[p := Fitting(boxes, r, objects, 8)] + BuiltKids(boxes, world, p, objects, 8)
  }

  /** The subtrees of the first `n` corners. */
  ghost function BuiltKids(boxes: Boxes, world: BoundingBox, p: Path, objects: seq<GameObject>,
                           n: nat): map<Path, seq<GameObject>>
    requires n <= 8 && !Small(Region(world, p))
    decreases Weight(Region(world, p)), n
  {
    if n == 0 then map[]
    else
      var r := Region(world, p);
      var down := Fitting(boxes, r, objects, n - 1);
      RegionLighter(world, p, n - 1);
      assert forall o <- down :: o in objects;
      BuiltKids(boxes, world, p, objects, n - 1)
        + (if down == [] then map[] else Built(boxes, world, Kid(p, n - 1), down))
  }

  // ----- conservation

  /** The slots share the objects out. */
  lemma FittingShares(boxes: Boxes, r: BoundingBox, objects: seq<GameObject>, n: nat)
    ensures multiset(UpTo(objects, Slots(boxes, r, objects), n + 1))
         == multiset(UpTo(objects, Slots(boxes, r, objects), n)) + multiset(Fitting(boxes, r, objects, n))
    ensures UpTo(objects, Slots(boxes, r, objects), 0) == []
    ensures UpTo(objects, Slots(boxes, r, objects), 9) == objects
  {
    SharedOut(objects, Slots(boxes, r, objects), n);
    SharedNone(objects, Slots(boxes, r, objects));
    SharedAll(objects, Slots(boxes, r, objects), 9);
  }

  lemma {:induction false} KeysBelow(boxes: Boxes, world: BoundingBox, p: Path, objects: seq<GameObject>)
    ensures p in Built(boxes, world, p, objects)
    ensures forall q <- Built(boxes, world, p, objects).Keys :: Below(p, q)
    decreases Weight(Region(world, p)), 9
  {
    if !Settled(boxes, Region(world, p), objects) {
      KidKeysBelow(boxes, world, p, objects, 8);
    }
  }

  lemma {:induction false} KidKeysBelow(boxes: Boxes, world: BoundingBox, p: Path, objects: seq<GameObject>, n: nat)
    requires n <= 8 && !Small(Region(world, p))
    ensures forall q <- BuiltKids(boxes, world, p, objects, n).Keys :: Below(p, q) && q != p && Toward(p, q) < n
    decreases Weight(Region(world, p)), n
  {
    if n > 0 {
      KidKeysBelow(boxes, world, p, objects, n - 1);
      RegionLighter(world, p, n - 1);
      var down := Fitting(boxes, Region(world, p), objects, n - 1);
      KeysBelow(boxes, world, Kid(p, n - 1), down);
      forall q <- BuiltKids(boxes, world, p, objects, n).Keys
        ensures Below(p, q) && q != p && Toward(p, q) < n
      {
        if q !in BuiltKids(boxes, world, p, objects, n - 1) {
          KidsApart(p, n - 1, q);
        }
      }
    }
  }

  /** Building keeps every object exactly as often as it was given. */
  lemma {:induction false} BuiltConserves(boxes: Boxes, world: BoundingBox, p: Path, objects: seq<GameObject>)
    ensures Total(Built(boxes, world, p, objects)) == multiset(objects)
    decreases Weight(Region(world, p)), 9
  {
    hide Region, Slot, Slots, Fitting, Small, Weight, Below, UpTo, Pick, BuiltKids;
    var r := Region(world, p);
    if Settled(boxes, r, objects) {
      TotalSingle(p, objects);
    } else {
      var kids := BuiltKids(boxes, world, p, objects, 8);
      KidKeysBelow(boxes, world, p, objects, 8);
      assert map[p := Fitting(boxes, r, objects, 8)].Keys !! kids.Keys;
      KidsConserve(boxes, world, p, objects, 8);
      TotalUnion(map[p := Fitting(boxes, r, objects, 8)], kids);
      TotalSingle(p, Fitting(boxes, r, objects, 8));
      FittingShares(boxes, r, objects, 8);
    }
  }

  lemma {:induction false} KidsConserve(boxes: Boxes, world: BoundingBox, p: Path, objects: seq<GameObject>, n: nat)
    requires n <= 8 && !Small(Region(world, p))
    ensures Total(BuiltKids(boxes, world, p, objects, n)) ==
      multiset(UpTo(objects, Slots(boxes, Region(world, p), objects), n))
    decreases Weight(Region(world, p)), n
  {
    hide Region, Slot, Slots, Fitting, Small, Weight, Below, UpTo, Pick, Built, Settled, Total;
    var r := Region(world, p);
    if n == 0 {
      FittingShares(boxes, r, objects, 0);
      TotalEmpty(BuiltKids(boxes, world, p, objects, 0));
    } else {
      KidsConserve(boxes, world, p, objects, n - 1);
      FittingShares(boxes, r, objects, n - 1);
      RegionLighter(world, p, n - 1);
      var down := Fitting(boxes, r, objects, n - 1);
      if down != [] {
        var sub := Built(boxes, world, Kid(p, n - 1), down);
        BuiltConserves(boxes, world, Kid(p, n - 1), down);
        SubApart(boxes, world, p, objects, n);
        TotalUnion(BuiltKids(boxes, world, p, objects, n - 1), sub);
      } else {
        assert BuiltKids(boxes, world, p, objects, n) == BuiltKids(boxes, world, p, objects, n - 1);
      }
    }
  }

  lemma SubApart(boxes: Boxes, world: BoundingBox, p: Path, objects: seq<GameObject>, n: nat)
    requires 0 < n <= 8 && !Small(Region(world, p))
    ensures BuiltKids(boxes, world, p, objects, n - 1).Keys
         !! Built(boxes, world, Kid(p, n - 1), Fitting(boxes, Region(world, p), objects, n - 1)).Keys
  {
    KidKeysBelow(boxes, world, p, objects, n - 1);
    var down := Fitting(boxes, Region(world, p), objects, n - 1);
    KeysBelow(boxes, world, Kid(p, n - 1), down);
    forall q | Below(Kid(p, n - 1), q) ensures Below(p, q) && q != p && Toward(p, q) == n - 1 {
      KidsApart(p, n - 1, q);
    }
  }

  // ----- where the objects end up

  /** The objects need no further division: the region is small, or there is one object and it is inside, or none that
      is not flat would fit into an octant. */
  ghost predicate Finest(boxes: Boxes, r: BoundingBox, objects: seq<GameObject>)
  {
    || Small(r)
    || (|objects| == 1 && r.Contains(BoxOf(boxes, objects[0])))
    || forall o <- objects | !BoxOf(boxes, o).IsPoint() :: forall k: Corner :: !Octant(r, k).Contains(BoxOf(boxes, o))
  }

  lemma FinestBy(boxes: Boxes, r: BoundingBox, objects: seq<GameObject>)
    requires forall k: Corner :: !Fills(boxes, r, objects, k)
    ensures Finest(boxes, r, objects)
  {
    hide Small, Octant;
    if !Settled(boxes, r, objects) {
      forall k: Corner ensures Fitting(boxes, r, objects, k) == [] { assert !Fills(boxes, r, objects, k); }
      forall o <- objects ensures Slot(boxes, r, o) == 8 {
        var k := Slot(boxes, r, o);
        assert k == 8 || o in Fitting(boxes, r, objects, k);
      }
    }
  }

  /** What holds of the objects of node `q` of a tree built at `top`: below the top they are not flat and inside
      the region of the node, and building the node once more would move nothing. */
  ghost predicate WellPlaced(boxes: Boxes, world: BoundingBox, top: Path, q: Path, objects: seq<GameObject>)
  {
    && (q != top ==> forall o <- objects :: !BoxOf(boxes, o).IsPoint() && Region(world, q).Contains(BoxOf(boxes, o)))
    && (forall k: Corner :: !Fills(boxes, Region(world, q), objects, k))
    && Finest(boxes, Region(world, q), objects)
  }

  lemma FittingAgain(boxes: Boxes, r: BoundingBox, objects: seq<GameObject>, j: nat, k: nat)
    ensures j != k ==> Fitting(boxes, r, Fitting(boxes, r, objects, j), k) == []
  {
    var kept := Fitting(boxes, r, objects, j);
    if Fitting(boxes, r, kept, k) != [] {
      var o := Fitting(boxes, r, kept, k)[0];
      assert o in kept && Slot(boxes, r, o) == k == j;
    }
  }

  lemma FittingInside(boxes: Boxes, world: BoundingBox, p: Path, objects: seq<GameObject>, k: Corner)
    ensures forall o <- Fitting(boxes, Region(world, p), objects, k) ::
      !BoxOf(boxes, o).IsPoint() && Region(world, Kid(p, k)).Contains(BoxOf(boxes, o))
  {}

  lemma TopKeepsSome(boxes: Boxes, world: BoundingBox, p: Path, objects: seq<GameObject>)
    ensures p in Built(boxes, world, p, objects)
    ensures forall o <- Built(boxes, world, p, objects)[p] :: o in objects
  {
    KeysBelow(boxes, world, p, objects);
    if !Settled(boxes, Region(world, p), objects) {
      KidKeysBelow(boxes, world, p, objects, 8);
    }
  }

  lemma {:induction false} BuiltWell(boxes: Boxes, world: BoundingBox, p: Path, objects: seq<GameObject>, q: Path)
    requires q in Built(boxes, world, p, objects)
    ensures WellPlaced(boxes, world, p, q, Built(boxes, world, p, objects)[q])
    decreases Weight(Region(world, p)), 9
  {
    var r := Region(world, p);
    var m := Built(boxes, world, p, objects);
    KeysBelow(boxes, world, p, objects);
    if Settled(boxes, r, objects) {
    } else if q == p {
      KidKeysBelow(boxes, world, p, objects, 8);
      forall k: Corner ensures Fitting(boxes, r, m[p], k) == [] {
        FittingAgain(boxes, r, objects, 8, k);
      }
      FinestBy(boxes, r, m[p]);
    } else {
      KidWell(boxes, world, p, objects, 8, q);
    }
  }

  lemma {:induction false} KidWell(boxes: Boxes, world: BoundingBox, p: Path, objects: seq<GameObject>, n: nat, q: Path)
    requires n <= 8 && !Small(Region(world, p))
    requires q in BuiltKids(boxes, world, p, objects, n)
    ensures WellPlaced(boxes, world, p, q, BuiltKids(boxes, world, p, objects, n)[q])
    decreases Weight(Region(world, p)), n
  {
    hide Region, Slot, Slots, Fitting, Small, Weight, Settled, Built, Below, FirstFit;
    KidKeysBelow(boxes, world, p, objects, n);
    SubApart(boxes, world, p, objects, n);
    if q in BuiltKids(boxes, world, p, objects, n - 1) {
      KidWell(boxes, world, p, objects, n - 1, q);
    } else {
      var down := Fitting(boxes, Region(world, p), objects, n - 1);
      var kid := Kid(p, n - 1);
      RegionLighter(world, p, n - 1);
      BuiltWell(boxes, world, kid, down, q);
      FittingInside(boxes, world, p, objects, n - 1);
      TopKeepsSome(boxes, world, kid, down);
    }
  }

  /** One object on its own stops in the first region that contains it, or in a small one; from a region that does not
      contain it, it goes to an octant that does, unless it is flat. */
  lemma BuiltAlone(boxes: Boxes, world: BoundingBox, p: Path, o: GameObject)
    ensures var r, box := Region(world, p), BoxOf(boxes, o);
      Built(boxes, world, p, [o]) ==
        if Small(r) || r.Contains(box) || box.IsPoint() || FirstFit(r, box) == 8 then map[p := [o]]
        else map[p := [], Kid(p, FirstFit(r, box)) := [o]]
  {
    hide Region, Small, FirstFit, Fitting, BuiltKids, Weight;
    var r, box := Region(world, p), BoxOf(boxes, o);
    if !Settled(boxes, r, [o]) {
      var k := Slot(boxes, r, o);
      AloneDivided(boxes, world, p, o);
      hide Built;
      if k == 8 {
        assert map[p := [o]] + map[] == map[p := [o]];
      } else {
        assert map[p := []] + map[Kid(p, k) := [o]] == map[p := [], Kid(p, k) := [o]];
      }
    }
  }

  lemma AloneDivided(boxes: Boxes, world: BoundingBox, p: Path, o: GameObject)
    requires !Settled(boxes, Region(world, p), [o])
    ensures var k := Slot(boxes, Region(world, p), o);
      Built(boxes, world, p, [o]) ==
        map[p := if k == 8 then [o] else []] + if k < 8 then map[Kid(p, k) := [o]] else map[]
  {
    hide Region, Small, FirstFit, BuiltKids, Weight, Slot;
    var r := Region(world, p);
    forall n: nat | n <= 8 ensures Fitting(boxes, r, [o], n) == if n == Slot(boxes, r, o) then [o] else [] {
      FittingOne(boxes, r, o, n);
    }
    AloneKids(boxes, world, p, o, 8);
    hide Fitting;
  }

  lemma FittingOne(boxes: Boxes, r: BoundingBox, o: GameObject, n: nat)
    ensures Fitting(boxes, r, [o], n) == if Slot(boxes, r, o) == n then [o] else []
  {
    hide Slot;
    assert Slots(boxes, r, [o]) == [Slot(boxes, r, o)] && Slots(boxes, r, []) == [];
    assert Pick<GameObject>([], [], n) == [];
  }

  lemma {:induction false} AloneKids(boxes: Boxes, world: BoundingBox, p: Path, o: GameObject, n: nat)
    requires n <= 8 && !Small(Region(world, p))
    requires forall j: nat | j <= 8 ::
      Fitting(boxes, Region(world, p), [o], j) == if j == Slot(boxes, Region(world, p), o) then [o] else []
    ensures var k := Slot(boxes, Region(world, p), o);
      BuiltKids(boxes, world, p, [o], n) == if k < n then map[Kid(p, k) := [o]] else map[]
  {
    hide Small, FirstFit, Fitting, Weight, Region, Slot, Built;
    if n > 0 {
      AloneKids(boxes, world, p, o, n - 1);
      if Slot(boxes, Region(world, p), o) == n - 1 { AloneKid(boxes, world, p, o); }
    }
  }

  lemma AloneKid(boxes: Boxes, world: BoundingBox, p: Path, o: GameObject)
    requires Slot(boxes, Region(world, p), o) < 8
    ensures var k := Slot(boxes, Region(world, p), o); Built(boxes, world, Kid(p, k), [o]) == map[Kid(p, k) := [o]]
  {
    hide Small, FirstFit, Fitting, Weight, BuiltKids;
    var k := Slot(boxes, Region(world, p), o);
    assert Settled(boxes, Region(world, Kid(p, k)), [o]);
  }

  /** A built tree is closed upwards and divides only regions that are not small. */
  lemma {:induction false} BuiltGrown(boxes: Boxes, world: BoundingBox, p: Path, objects: seq<GameObject>, q: Path)
    requires q in Built(boxes, world, p, objects) && q != p
    ensures q.Kid? && q.up in Built(boxes, world, p, objects) && !Small(Region(world, q.up))
    decreases Weight(Region(world, p)), 9
  {
    KeysBelow(boxes, world, p, objects);
    KidGrown(boxes, world, p, objects, 8, q);
  }

  lemma {:induction false} KidGrown(boxes: Boxes, world: BoundingBox, p: Path, objects: seq<GameObject>, n: nat,
                                    q: Path)
    requires n <= 8 && !Small(Region(world, p))
    requires q in BuiltKids(boxes, world, p, objects, n)
    ensures q.Kid? && (q.up == p || q.up in BuiltKids(boxes, world, p, objects, n)) && !Small(Region(world, q.up))
    decreases Weight(Region(world, p)), n
  {
    if q in BuiltKids(boxes, world, p, objects, n - 1) {
      KidGrown(boxes, world, p, objects, n - 1, q);
    } else {
      var down := Fitting(boxes, Region(world, p), objects, n - 1);
      var kid := Kid(p, n - 1);
      RegionLighter(world, p, n - 1);
      if q != kid {
        BuiltGrown(boxes, world, kid, down, q);
      }
    }
  }

  // ----- building over existing children

  /** The nodes below `p` that building the node throws away: everything under a corner that is assigned anew. */
  ghost predicate Discarded(boxes: Boxes, world: BoundingBox, p: Path, objects: seq<GameObject>, q: Path)
  {
    Below(p, q) && q != p && Fills(boxes, Region(world, p), objects, Toward(p, q))
  }

  /** The tree after `BuildTree` at `p`. */
  ghost function Rebuilt(boxes: Boxes, world: BoundingBox, m: map<Path, seq<GameObject>>,
                         p: Path): map<Path, seq<GameObject>>
    requires p in m
  {
    (map q | q in m && !Discarded(boxes, world, p, m[p], q) :: m[q]) + Built(boxes, world, p, m[p])
  }

  /** The part of the tree that `BuildTree` at `p` throws away. */
  ghost function Overwritten(boxes: Boxes, world: BoundingBox, m: map<Path, seq<GameObject>>,
                             p: Path): map<Path, seq<GameObject>>
    requires p in m
  {
    map q | q in m && Discarded(boxes, world, p, m[p], q) :: m[q]
  }

  lemma {:induction false} BuiltFills(boxes: Boxes, world: BoundingBox, p: Path, objects: seq<GameObject>, n: nat,
                                      q: Path)
    requires n <= 8 && !Settled(boxes, Region(world, p), objects)
    requires q in BuiltKids(boxes, world, p, objects, n)
    ensures Below(p, q) && q != p && Fills(boxes, Region(world, p), objects, Toward(p, q))
    decreases n
  {
    hide Region, Slot, Slots, Small, Weight, FirstFit;
    KidKeysBelow(boxes, world, p, objects, n);
    if q in BuiltKids(boxes, world, p, objects, n - 1) {
      BuiltFills(boxes, world, p, objects, n - 1, q);
    } else {
      KeysBelow(boxes, world, Kid(p, n - 1), Fitting(boxes, Region(world, p), objects, n - 1));
      KidsApart(p, n - 1, q);
    }
  }

  /** The nodes that `BuildTree` at `p` neither builds nor throws away. */
  ghost function Untouched(boxes: Boxes, world: BoundingBox, m: map<Path, seq<GameObject>>,
                           p: Path): map<Path, seq<GameObject>>
    requires p in m
  {
    map q | q in m && !Discarded(boxes, world, p, m[p], q) && q != p :: m[q]
  }

  lemma RebuiltParts(boxes: Boxes, world: BoundingBox, m: map<Path, seq<GameObject>>, p: Path)
    requires p in m
    ensures Rebuilt(boxes, world, m, p) == Untouched(boxes, world, m, p) + Built(boxes, world, p, m[p])
    ensures Untouched(boxes, world, m, p).Keys !! Built(boxes, world, p, m[p]).Keys
  {
    hide Built, Discarded;
    RebuiltApart(boxes, world, m, p);
  }

  lemma RestParts(boxes: Boxes, world: BoundingBox, m: map<Path, seq<GameObject>>, p: Path)
    requires p in m
    ensures m - {p} == Untouched(boxes, world, m, p) + Overwritten(boxes, world, m, p)
    ensures Untouched(boxes, world, m, p).Keys !! Overwritten(boxes, world, m, p).Keys
  {
    hide Built, Discarded;
    RebuiltApart(boxes, world, m, p);
  }

  /** `BuildTree` accounts for every object: what is not in the rebuilt tree was under a corner assigned anew. */
  lemma RebuiltAccounts(boxes: Boxes, world: BoundingBox, m: map<Path, seq<GameObject>>, p: Path)
    requires p in m
    ensures Total(Rebuilt(boxes, world, m, p)) + Total(Overwritten(boxes, world, m, p)) == Total(m)
  {
    hide Built, Untouched, Overwritten, Rebuilt, Total;
    RebuiltParts(boxes, world, m, p);
    RestParts(boxes, world, m, p);
    BuiltConserves(boxes, world, p, m[p]);
    TotalWithout(m, p);
    var rest, lost, sub := Untouched(boxes, world, m, p), Overwritten(boxes, world, m, p), Built(boxes, world, p, m[p]);
    TotalUnion(rest, sub);
    TotalUnion(rest, lost);
    SumSwap(Total(rest), multiset(m[p]), Total(lost));
  }

  lemma SumSwap<T>(a: multiset<T>, b: multiset<T>, c: multiset<T>)
    ensures a + b + c == b + (a + c)
  {}

  lemma RebuiltApart(boxes: Boxes, world: BoundingBox, m: map<Path, seq<GameObject>>, p: Path)
    requires p in m
    ensures p in Built(boxes, world, p, m[p])
    ensures !Discarded(boxes, world, p, m[p], p)
    ensures forall q <- Built(boxes, world, p, m[p]).Keys :: q == p || Discarded(boxes, world, p, m[p], q)
  {
    KeysBelow(boxes, world, p, m[p]);
    forall q <- Built(boxes, world, p, m[p]).Keys ensures q == p || Discarded(boxes, world, p, m[p], q) {
      if q != p { BuiltFills(boxes, world, p, m[p], 8, q); }
    }
  }

  /** `BuildTree` keeps every object exactly when no object lies under a corner it assigns anew. */
  lemma RebuiltConservesIff(boxes: Boxes, world: BoundingBox, m: map<Path, seq<GameObject>>, p: Path)
    requires p in m
    ensures Total(Rebuilt(boxes, world, m, p)) == Total(m)
      <==> forall q <- m.Keys :: Discarded(boxes, world, p, m[p], q) ==> m[q] == []
  {
    hide Discarded, Rebuilt;
    RebuiltAccounts(boxes, world, m, p);
    var lost := Overwritten(boxes, world, m, p);
    if forall q <- m.Keys :: Discarded(boxes, world, p, m[p], q) ==> m[q] == [] {
      TotalEmpty(lost);
    } else {
      var q :| q in m && Discarded(boxes, world, p, m[p], q) && m[q] != [];
      TotalHas(lost, q, m[q][0]);
      assert Total(Rebuilt(boxes, world, m, p)) != Total(m);
    }
  }

  /** Building a node a second time changes nothing. */
  lemma RebuildTwice(boxes: Boxes, world: BoundingBox, m: map<Path, seq<GameObject>>, p: Path)
    requires p in m
    ensures Rebuilt(boxes, world, Rebuilt(boxes, world, m, p), p) == Rebuilt(boxes, world, m, p)
  {
    hide BuiltKids, Slot, Slots, Fitting;
    var n := Rebuilt(boxes, world, m, p);
    RebuiltApart(boxes, world, m, p);
    BuiltWell(boxes, world, p, m[p], p);
    NothingFills(boxes, world, p, n[p]);
    assert forall q | q in n :: !Discarded(boxes, world, p, n[p], q);
  }

  /** A node whose corners all stay as they are is left alone. */
  lemma NothingFills(boxes: Boxes, world: BoundingBox, p: Path, objects: seq<GameObject>)
    requires forall k: Corner :: !Fills(boxes, Region(world, p), objects, k)
    ensures Built(boxes, world, p, objects) == map[p := objects]
  {
    hide Region, Small, FirstFit, Pick, BuiltKids, Settled;
    var r := Region(world, p);
    if !Settled(boxes, r, objects) {
      forall i | 0 <= i < |objects| ensures Slots(boxes, r, objects)[i] == 8 {
        var k := Slot(boxes, r, objects[i]);
        assert objects[i] in Fitting(boxes, r, objects, k);
        assert k < 8 ==> Fills(boxes, r, objects, k);
      }
      PickAll(objects, Slots(boxes, r, objects), 8);
      FittingIsPick(boxes, r, objects, 8);
      NoKids(boxes, world, p, objects, 8);
    }
  }

  lemma RebuiltSettled(boxes: Boxes, world: BoundingBox, m: map<Path, seq<GameObject>>, p: Path)
    requires p in m && Settled(boxes, Region(world, p), m[p])
    ensures Rebuilt(boxes, world, m, p) == m
  {
    hide Region, Below, Fitting, BuiltKids;
  }

  lemma {:induction false} NoKids(boxes: Boxes, world: BoundingBox, p: Path, objects: seq<GameObject>, n: nat)
    requires n <= 8 && !Settled(boxes, Region(world, p), objects)
    requires forall k: Corner :: !Fills(boxes, Region(world, p), objects, k)
    ensures BuiltKids(boxes, world, p, objects, n) == map[]
  {
    hide Region, Slot, Slots, Fitting, Small, Weight, Settled;
    if n > 0 {
      NoKids(boxes, world, p, objects, n - 1);
      assert !Fills(boxes, Region(world, p), objects, n - 1);
    }
  }

  lemma {:induction false} RebuiltGrown(boxes: Boxes, world: BoundingBox, m: map<Path, seq<GameObject>>, p: Path)
    requires p in m && Grown(world, m.Keys)
    ensures Grown(world, Rebuilt(boxes, world, m, p).Keys)
  {
    hide Built, Fills, Small, Region;
    var n := Rebuilt(boxes, world, m, p);
    RebuiltApart(boxes, world, m, p);
    BelowTop(p);
    GrownAbove(world, m.Keys, Top, p);
    forall q | q in n && q.Kid? ensures q.up in n && !Small(Region(world, q.up)) {
      if q in Built(boxes, world, p, m[p]) {
        if q != p {
          BuiltGrown(boxes, world, p, m[p], q);
        } else if Discarded(boxes, world, p, m[p], q.up) {
          BelowDeeper(p, q.up);
        }
      }
    }
    if Discarded(boxes, world, p, m[p], Top) { assert false; }
  }

  // ----- corner by corner

  /** The tree when `BuildTree` at `p` has dealt with the first `n` corners. */
  ghost function Partly(boxes: Boxes, world: BoundingBox, m: map<Path, seq<GameObject>>, p: Path,
                        n: nat): map<Path, seq<GameObject>>
    requires p in m && n <= 8 && !Small(Region(world, p))
  {
    Spared(boxes, world, m, p, n) + BuiltKids(boxes, world, p, m[p], n)
  }

  /** The part of it that was there before. */
  ghost function Spared(boxes: Boxes, world: BoundingBox, m: map<Path, seq<GameObject>>, p: Path,
                        n: nat): map<Path, seq<GameObject>>
    requires p in m && n <= 8
  {
    (map q | q in m && !(Discarded(boxes, world, p, m[p], q) && Toward(p, q) < n) :: m[q])
      [p := Fitting(boxes, Region(world, p), m[p], 8)]
  }

  lemma PartlyStart(boxes: Boxes, world: BoundingBox, m: map<Path, seq<GameObject>>, p: Path)
    requires p in m && !Settled(boxes, Region(world, p), m[p])
    ensures Partly(boxes, world, m, p, 0) == m[p := Fitting(boxes, Region(world, p), m[p], 8)]
  {
    hide Region, Slot, Slots, Fitting, Small, Weight, FirstFit, Below, Discarded;
  }

  lemma PartlyEnd(boxes: Boxes, world: BoundingBox, m: map<Path, seq<GameObject>>, p: Path)
    requires p in m && !Settled(boxes, Region(world, p), m[p])
    ensures Partly(boxes, world, m, p, 8) == Rebuilt(boxes, world, m, p)
  {
    hide Region, Slot, Slots, Fitting, Small, Weight, FirstFit, Below, BuiltKids, Fills;
    KidKeysBelow(boxes, world, p, m[p], 8);
    var kids, stays := BuiltKids(boxes, world, p, m[p], 8), Fitting(boxes, Region(world, p), m[p], 8);
    var rest := map q | q in m && !Discarded(boxes, world, p, m[p], q) :: m[q];
    assert Spared(boxes, world, m, p, 8) == rest[p := stays];
    hide Discarded, Settled;
    assert p !in kids;
    assert rest[p := stays] + kids == rest + (map[p := stays] + kids);
  }

  lemma SparedStep(boxes: Boxes, world: BoundingBox, m: map<Path, seq<GameObject>>, p: Path, k: Corner)
    requires p in m && !Settled(boxes, Region(world, p), m[p])
    ensures Spared(boxes, world, m, p, k + 1) ==
      if Fitting(boxes, Region(world, p), m[p], k) == [] then Spared(boxes, world, m, p, k)
      else Outside(Spared(boxes, world, m, p, k), Kid(p, k))
  {
    hide Region, Slot, Slots, Fitting, Small, Weight, FirstFit, Settled, Below;
    NotBelowKid(p, k);
    forall q | q in m ensures Below(Kid(p, k), q) <==> Below(p, q) && q != p && Toward(p, q) == k {
      if Below(Kid(p, k), q) { KidsApart(p, k, q); }
    }
  }

  lemma KidsOutside(boxes: Boxes, world: BoundingBox, p: Path, objects: seq<GameObject>, k: Corner)
    requires !Small(Region(world, p))
    ensures Outside(BuiltKids(boxes, world, p, objects, k), Kid(p, k)) == BuiltKids(boxes, world, p, objects, k)
  {
    hide Region, Slot, Slots, Fitting, Small, BuiltKids, Below;
    KidKeysBelow(boxes, world, p, objects, k);
    forall q <- BuiltKids(boxes, world, p, objects, k).Keys ensures !Below(Kid(p, k), q) {
      if Below(Kid(p, k), q) { KidsApart(p, k, q); }
    }
  }

  lemma OutsideUnion<T>(a: map<Path, T>, b: map<Path, T>, c: map<Path, T>, p: Path)
    ensures Outside(a + b, p) == Outside(a, p) + Outside(b, p)
    ensures a + (b + c) == a + b + c
  {}

  lemma PartlyStep(boxes: Boxes, world: BoundingBox, m: map<Path, seq<GameObject>>, p: Path, k: Corner)
    requires p in m && !Settled(boxes, Region(world, p), m[p])
    ensures var down := Fitting(boxes, Region(world, p), m[p], k);
      Partly(boxes, world, m, p, k + 1) ==
        if down == [] then Partly(boxes, world, m, p, k)
        else Outside(Partly(boxes, world, m, p, k), Kid(p, k)) + Built(boxes, world, Kid(p, k), down)
  {
    hide Region, Slot, Slots, Fitting, Small, Spared, BuiltKids, Built, Outside;
    var down := Fitting(boxes, Region(world, p), m[p], k);
    SparedStep(boxes, world, m, p, k);
    BuiltKidsStep(boxes, world, p, m[p], k);
    KidsOutside(boxes, world, p, m[p], k);
    OutsideUnion(Spared(boxes, world, m, p, k), BuiltKids(boxes, world, p, m[p], k), map[], Kid(p, k));
    OutsideUnion(Spared(boxes, world, m, p, k + 1), BuiltKids(boxes, world, p, m[p], k),
                 Built(boxes, world, Kid(p, k), down), Kid(p, k));
  }

  lemma BuiltKidsStep(boxes: Boxes, world: BoundingBox, p: Path, objects: seq<GameObject>, k: Corner)
    requires !Small(Region(world, p))
    ensures var down := Fitting(boxes, Region(world, p), objects, k);
      BuiltKids(boxes, world, p, objects, k + 1) ==
        BuiltKids(boxes, world, p, objects, k) + if down == [] then map[] else Built(boxes, world, Kid(p, k), down)
  {
    hide Region, Slot, Slots, Fitting, Small, Weight, FirstFit, Built;
  }

  /** Building a node with nothing under it. */
  lemma RebuiltBare(boxes: Boxes, world: BoundingBox, m: map<Path, seq<GameObject>>, p: Path)
    requires p in m && forall q <- m.Keys :: Below(p, q) ==> q == p
    ensures Rebuilt(boxes, world, m, p) == m + Built(boxes, world, p, m[p])
  {
    hide Region, Built, Fills;
    RebuiltApart(boxes, world, m, p);
  }

  lemma FittingIsPick(boxes: Boxes, r: BoundingBox, objects: seq<GameObject>, k: nat)
    ensures Fitting(boxes, r, objects, k) == Pick(objects, Slots(boxes, r, objects), k)
  {}

  /** A new child, built, in place of a subtree. */
  lemma RebuiltNew(boxes: Boxes, world: BoundingBox, m: map<Path, seq<GameObject>>, kid: Path, down: seq<GameObject>)
    ensures Rebuilt(boxes, world, Outside(m, kid)[kid := down], kid) == Outside(m, kid) + Built(boxes, world, kid, down)
  {
    hide Built, Rebuilt;
    RebuiltBare(boxes, world, Outside(m, kid)[kid := down], kid);
    KeysBelow(boxes, world, kid, down);
    PutUnder(Outside(m, kid), kid, down, Built(boxes, world, kid, down));
  }

  lemma PutUnder<T>(a: map<Path, T>, k: Path, x: T, b: map<Path, T>)
    requires k in b
    ensures a[k := x] + b == a + b
  {}
}
