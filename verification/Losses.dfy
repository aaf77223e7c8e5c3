/** Concrete inputs on which the index loses or misplaces an object. */
module Losses {
  import opened Geometry
  import opened Options
  import opened Sequences
  import opened GameObjects
  import opened Places
  import opened Totals
  import opened Building
  import opened Aging
  import opened Risks
  import opened Settling
  import opened Ticking
  import opened Updating

  /** The region of a default tree. */
  const WORLD := BoundingBox(Vec3(0.0, 0.0, 0.0), Vec3(2500.0, 2500.0, 2500.0))

  const CORNER := Kid(Top, 0)

  /** A box in the lowest octant of the lowest octant, and one in the middle of the lowest octant. */
  const DEEP := BoundingBox(Vec3(-2000.0, -2000.0, -2000.0), Vec3(1.0, 1.0, 1.0))
  const MIDDLE := BoundingBox(Vec3(-1250.0, -1250.0, -1250.0), Vec3(10.0, 10.0, 10.0))

  lemma Fits()
    ensures !Small(WORLD) && WORLD.Contains(DEEP) && WORLD.Contains(MIDDLE)
    ensures Region(WORLD, Top) == WORLD && Region(WORLD, CORNER) == Octant(WORLD, 0) && !Small(Region(WORLD, CORNER))
    ensures FirstFit(WORLD, DEEP) == FirstFit(WORLD, MIDDLE) == 0
    ensures Region(WORLD, CORNER).Contains(DEEP) && Region(WORLD, CORNER).Contains(MIDDLE)
    ensures FirstFit(Region(WORLD, CORNER), DEEP) == 0 && FirstFit(Region(WORLD, CORNER), MIDDLE) == 8
  {
    assert Octant(WORLD, 0) == BoundingBox(Vec3(-1250.0, -1250.0, -1250.0), Vec3(1250.0, 1250.0, 1250.0));
    assert Octant(Octant(WORLD, 0), 0).Contains(DEEP);
  }

  /** Three objects inserted one after the other into a built top node that holds `t`. */
  lemma ThreeInserted(t: GameObject, x: GameObject, y: GameObject, z: GameObject)
    returns (m1: map<Path, seq<GameObject>>, m2: map<Path, seq<GameObject>>, m3: map<Path, seq<GameObject>>)
    ensures var m0 := map[Top := [t]];
      && Home(WORLD, m0, Top, DEEP) == Some(CORNER) && m1 == Put(m0, CORNER, x)
      && Home(WORLD, m1, Top, MIDDLE) == Some(CORNER) && m2 == Put(m1, CORNER, y)
      && Home(WORLD, m2, Top, DEEP) == Some(Kid(CORNER, 0)) && m3 == Put(m2, Kid(CORNER, 0), z)
    ensures m3 == map[Top := [t], CORNER := [x, y], Kid(CORNER, 0) := [z]]
  {
    hide Region, Small, FirstFit, Home;
    Fits();
    var m0 := map[Top := [t]];
    m1 := Put(m0, CORNER, x);
    m2 := Put(m1, CORNER, y);
    m3 := Put(m2, Kid(CORNER, 0), z);
    assert [] + [x] == [x] && [x] + [y] == [x, y] && [] + [z] == [z];
    assert m1 == map[Top := [t], CORNER := [x]] && m2 == map[Top := [t], CORNER := [x, y]];
    HomeDown(WORLD, m0, Top, DEEP);
    HomeDown(WORLD, m1, Top, MIDDLE);
    HomeDown(WORLD, m1, CORNER, MIDDLE);
    HomeDown(WORLD, m2, Top, DEEP);
    HomeDown(WORLD, m2, CORNER, DEEP);
  }

  /** The first update of the new node then throws the third object away. */
  lemma FirstUpdateLosesObject(t: GameObject, x: GameObject, y: GameObject, z: GameObject, boxes: Boxes)
    requires t != z && x != z && y != z
    requires x in boxes && boxes[x] == DEEP && y in boxes && boxes[y] == MIDDLE
    ensures var m := map[Top := [t], CORNER := [x, y], Kid(CORNER, 0) := [z]];
      z in Total(m) && z !in Total(Rebuilt(boxes, WORLD, m, CORNER))
  {
    hide Region, Small, FirstFit, Rebuilt, Total;
    Fits();
    var m := map[Top := [t], CORNER := [x, y], Kid(CORNER, 0) := [z]];
    assert x in [x, y] && Slot(boxes, Region(WORLD, CORNER), x) == 0;
    assert x in Fitting(boxes, Region(WORLD, CORNER), [x, y], 0);
    assert Fills(boxes, Region(WORLD, CORNER), m[CORNER], 0);
    var lost := Overwritten(boxes, WORLD, m, CORNER);
    assert Kid(CORNER, 0) in lost;
    TotalHas(lost, Kid(CORNER, 0), z);
    RebuiltAccounts(boxes, WORLD, m, CORNER);
    CountThree(m, Kid(CORNER, 0), t, x, y, z);
    assert Total(Rebuilt(boxes, WORLD, m, CORNER))[z] + Total(lost)[z] == Total(m)[z];
  }

  lemma CountThree(m: map<Path, seq<GameObject>>, deep: Path, t: GameObject, x: GameObject, y: GameObject,
                   z: GameObject)
    requires deep == Kid(CORNER, 0) && m == map[Top := [t], CORNER := [x, y], deep := [z]]
    requires t != z && x != z && y != z
    ensures Total(m)[z] == 1
  {
    hide Total;
    var two: map<Path, seq<GameObject>> := map[Top := [t], CORNER := [x, y]];
    assert forall k <- two.Keys :: z !in two[k];
    if z in Total(two) { TotalFrom(two, z); }
    assert two[deep := [z]] == m;
    TotalSet(two, deep, [z]);
  }

  /** A flat object alone in a childless node stays there wherever it moves. */
  lemma FlatObjectStays(t: GameObject, x: GameObject, box: BoundingBox)
    requires box == BoundingBox(Vec3(2000.0, 2000.0, 2000.0), Vec3(0.0, 0.0, 0.0))
    ensures var s := State(WORLD, map[Top := [t], CORNER := [x]], map[Top := NEW_AGE, CORNER := NEW_AGE]);
      Relocated(s, s, CORNER, x, box) && !Region(WORLD, CORNER).Contains(box) && WORLD.Contains(box)
  {
    var m0 := map[Top := [t], CORNER := [x]];
    var m := m0[CORNER := Without([x], x)];
    assert Vacant(m, CORNER);
    assert Start(WORLD, CORNER, box) == CORNER;
    HomeHere(WORLD, m, CORNER, box);
    assert [] + [x] == [x];
    assert Put(m, CORNER, x) == m0;
    assert Region(WORLD, CORNER) == Octant(WORLD, 0);
  }

  // ----- a tick of a fully built tree with an empty queue

  const FAR := Kid(Top, 6)

  const OUTER := Kid(FAR, 6)

  /** Boxes in the opposite octant: deep in its outer octant, and in the middle of that. */
  const FAR_DEEP := BoundingBox(Vec3(2200.0, 2200.0, 2200.0), Vec3(1.0, 1.0, 1.0))
  const FAR_MIDDLE := BoundingBox(Vec3(1875.0, 1875.0, 1875.0), Vec3(10.0, 10.0, 10.0))

  lemma FitsSixth(r: BoundingBox, box: BoundingBox)
    requires box.Proper() && !box.IsPoint() && Octant(r, 6).Contains(box)
    ensures FirstFit(r, box) == 6
  {
    var k := FirstFit(r, box);
    if k < 6 { OctantUnique(r, k, 6, box); }
  }

  lemma FarFits()
    ensures !Small(WORLD) && WORLD.Contains(FAR_DEEP) && WORLD.Contains(FAR_MIDDLE)
    ensures !Small(Region(WORLD, FAR)) && !Small(Region(WORLD, OUTER))
    ensures Region(WORLD, FAR).Contains(FAR_DEEP) && Region(WORLD, FAR).Contains(FAR_MIDDLE)
    ensures Region(WORLD, OUTER).Contains(FAR_DEEP) && Region(WORLD, OUTER).Contains(FAR_MIDDLE)
    ensures FirstFit(WORLD, FAR_DEEP) == FirstFit(WORLD, FAR_MIDDLE) == 6
    ensures FirstFit(Region(WORLD, FAR), FAR_DEEP) == FirstFit(Region(WORLD, FAR), FAR_MIDDLE) == 6
    ensures FirstFit(Region(WORLD, OUTER), FAR_DEEP) == 6 && FirstFit(Region(WORLD, OUTER), FAR_MIDDLE) == 8
    ensures Start(WORLD, CORNER, FAR_DEEP) == Start(WORLD, CORNER, FAR_MIDDLE) == Top
  {
    hide FirstFit;
    var far, outer := Octant(WORLD, 6), Octant(Octant(WORLD, 6), 6);
    assert Region(WORLD, Top) == WORLD && Region(WORLD, FAR) == far && Region(WORLD, OUTER) == outer;
    assert far == BoundingBox(Vec3(1250.0, 1250.0, 1250.0), Vec3(1250.0, 1250.0, 1250.0));
    assert outer == BoundingBox(Vec3(1875.0, 1875.0, 1875.0), Vec3(625.0, 625.0, 625.0));
    FitsSixth(WORLD, FAR_DEEP);
    FitsSixth(WORLD, FAR_MIDDLE);
    FitsSixth(far, FAR_DEEP);
    FitsSixth(far, FAR_MIDDLE);
    FitsSixth(outer, FAR_DEEP);
    forall k: Corner ensures !Octant(outer, k).Contains(FAR_MIDDLE) {}
    assert Region(WORLD, CORNER) == Octant(WORLD, 0);
  }

  /** Where the three movers of the corner go: to a new node under the far child, to that node, and to a new child of
      it. */
  lemma MoversHomes(b: GameObject, x: GameObject, y: GameObject, z: GameObject)
    ensures Home(WORLD, map[Top := [], CORNER := [y, z], FAR := [b]], Top, FAR_DEEP) == Some(OUTER)
    ensures Home(WORLD, map[Top := [], CORNER := [z], FAR := [b], OUTER := [x]], Top, FAR_MIDDLE) == Some(OUTER)
    ensures Home(WORLD, map[Top := [], CORNER := [], FAR := [b], OUTER := [x, y]], Top, FAR_DEEP) == Some(Kid(OUTER, 6))
  {
    hide Region, Small, FirstFit, Home;
    FarFits();
    var m1: map<Path, seq<GameObject>> := map[Top := [], CORNER := [y, z], FAR := [b]];
    var m2: map<Path, seq<GameObject>> := map[Top := [], CORNER := [z], FAR := [b], OUTER := [x]];
    var m3: map<Path, seq<GameObject>> := map[Top := [], CORNER := [], FAR := [b], OUTER := [x, y]];
    assert Region(WORLD, Top) == WORLD by { TopRegion(); }
    assert Kid(Top, 6) in m1 && Kid(Top, 6) in m2 && Kid(Top, 6) in m3;
    HomeDown(WORLD, m1, Top, FAR_DEEP);
    HomeDown(WORLD, m1, FAR, FAR_DEEP);
    HomeDown(WORLD, m2, Top, FAR_MIDDLE);
    HomeDown(WORLD, m2, FAR, FAR_MIDDLE);
    HomeDown(WORLD, m2, OUTER, FAR_MIDDLE);
    HomeDown(WORLD, m3, Top, FAR_DEEP);
    HomeDown(WORLD, m3, FAR, FAR_DEEP);
    HomeDown(WORLD, m3, OUTER, FAR_DEEP);
  }

  lemma MoversPut(b: GameObject, x: GameObject, y: GameObject, z: GameObject)
    ensures var m1 := map[Top := [], CORNER := [y, z], FAR := [b]];
      Put(m1, OUTER, x) == map[Top := [], CORNER := [y, z], FAR := [b], OUTER := [x]]
    ensures var m2 := map[Top := [], CORNER := [z], FAR := [b], OUTER := [x]];
      Put(m2, OUTER, y) == map[Top := [], CORNER := [z], FAR := [b], OUTER := [x, y]]
    ensures var m3 := map[Top := [], CORNER := [], FAR := [b], OUTER := [x, y]];
      Put(m3, Kid(OUTER, 6), z) == map[Top := [], CORNER := [], FAR := [b], OUTER := [x, y], Kid(OUTER, 6) := [z]]
  {
    assert [] + [x] == [x] && [x] + [y] == [x, y] && [] + [z] == [z];
  }

  lemma TopRegion()
    ensures Region(WORLD, Top) == WORLD
  {}

  lemma MoversAstray(s: State, boxes: Boxes, b: GameObject, x: GameObject, y: GameObject, z: GameObject)
    requires x in boxes && boxes[x] == FAR_DEEP && y in boxes && boxes[y] == FAR_MIDDLE && z in boxes
      && boxes[z] == FAR_DEEP
    requires b != x && b != y && b != z && s.world == WORLD && s.m == map[Top := [], CORNER := [x, y, z], FAR := [b]]
    ensures Astray(s, boxes, {x, y, z}) == {x, y, z}
  {
    assert Region(WORLD, CORNER) == Octant(WORLD, 0);
    hide Region;
    assert s.m[CORNER] == [x, y, z];
    assert x in s.m[CORNER] && y in s.m[CORNER] && z in s.m[CORNER];
  }

  /** The first object of the corner leaves for `h`. */
  lemma MoverStep(s: State, s': State, x: GameObject, rest: seq<GameObject>, box: BoundingBox, h: Path)
    requires s.world == s'.world == WORLD && CORNER in s.m && s.m[CORNER] == [x] + rest && s.m.Keys == s.ages.Keys
    requires Start(WORLD, CORNER, box) == Top && Home(WORLD, s.m[CORNER := rest], Top, box) == Some(h)
    requires s'.m == Put(s.m[CORNER := rest], h, x)
    requires s'.ages == if h in s.ages then s.ages else s.ages[h := NEW_AGE]
    ensures Relocated(s, s', CORNER, x, box)
  {
    hide Home, Start;
    assert ([x] + rest)[1..] == rest && ([x] + rest)[0] == x;
    assert Without(s.m[CORNER], x) == rest;
  }

  lemma MoverLost(b: GameObject, x: GameObject, y: GameObject, z: GameObject, boxes: Boxes,
                  m: map<Path, seq<GameObject>>)
    requires b != z && x != z && y != z && x in boxes && boxes[x] == FAR_DEEP
    requires m == map[Top := [], CORNER := [], FAR := [b], OUTER := [x, y], Kid(OUTER, 6) := [z]]
    ensures z in Total(m) && z !in Total(Rebuilt(boxes, WORLD, m, OUTER))
  {
    hide Region, Small, FirstFit, Rebuilt, Total;
    FarFits();
    assert x in [x, y] && Slot(boxes, Region(WORLD, OUTER), x) == 6;
    assert x in Fitting(boxes, Region(WORLD, OUTER), [x, y], 6);
    assert Fills(boxes, Region(WORLD, OUTER), m[OUTER], 6);
    var lost := Overwritten(boxes, WORLD, m, OUTER);
    assert Kid(OUTER, 6) in lost;
    TotalHas(lost, Kid(OUTER, 6), z);
    RebuiltAccounts(boxes, WORLD, m, OUTER);
    var rest: map<Path, seq<GameObject>> := map[Top := [], CORNER := [], FAR := [b], OUTER := [x, y]];
    assert forall k <- rest.Keys :: z !in rest[k];
    if z in Total(rest) { TotalFrom(rest, z); }
    assert rest[Kid(OUTER, 6) := [z]] == m;
    TotalSet(rest, Kid(OUTER, 6), [z]);
    assert Total(Rebuilt(boxes, WORLD, m, OUTER))[z] + Total(lost)[z] == Total(m)[z];
  }

  // ----- the ticks as a whole

  lemma {:induction false} KeptAll(objects: seq<GameObject>)
    ensures Kept(objects, {}) == objects
  {
    if objects != [] { KeptAll(objects[1..]); }
  }

  /** At a node that does not run, with nothing marked and no child running, only the objects to move are collected. */
  lemma StillPrepared(s: State, s1: State, v: View, p: Path, queue: seq<GameObject>)
    requires p in s.m && p in s.ages && SettledAs(s, v.boxes, p, queue) == s1
    requires p in s1.m && p in s1.ages && v.marked == {} && (s1.m[p] != [] || !Leaf(s1.m, p))
    requires forall q <- s1.ages.Keys :: s1.ages[q].lifespan == -1
    ensures var moved := MovedOf(s1.m[p], v.dirty);
      PreparedAs(s, v, p, queue) == (s1, v.(dirty := v.dirty - Elements(moved)), moved)
  {
    KeptAll(s1.m[p]);
    hide SettledAs, MovedOf, Kept;
    assert s1.ages[p := s1.ages[p]] == s1.ages && s1.m[p := s1.m[p]] == s1.m;
    StillUnexpired(s1, p, 8);
  }

  lemma {:induction false} StillUnexpired(s: State, p: Path, n: nat)
    requires n <= 8 && forall q <- s.ages.Keys :: s.ages[q].lifespan == -1
    ensures ExpiredUpTo(s, p, n) == s
  {
    if n > 0 { StillUnexpired(s, p, n - 1); }
  }

  /** With one child in `due`, that one is updated. */
  lemma OneKid(s: State, v: View, p: Path, k: Corner)
    requires !Small(Region(s.world, p))
    ensures UpdatedKids(s, v, p, {k}, 8) == Updated(s, v, Kid(p, k), [])
  {
    hide Small, Region, Updated;
    NoKid(s, v, p, {k}, k);
    KidsNext(s, v, p, {k}, k, s.world, s, v);
    KidsRest(s, v, p, {k}, k + 1);
  }

  lemma {:induction false} NoKid(s: State, v: View, p: Path, due: set<Corner>, n: nat)
    requires n <= 8 && forall k <- due :: n <= k
    ensures UpdatedKids(s, v, p, due, n) == (s, v)
  {
    hide Small, Region, Updated;
    if n > 0 { NoKid(s, v, p, due, n - 1); }
  }

  /** With two, the lower one first. */
  lemma TwoKids(s: State, v: View, p: Path, j: Corner, k: Corner, s': State, v': View)
    requires !Small(Region(s.world, p)) && j < k && s'.world == s.world && Updated(s, v, Kid(p, j), []) == (s', v')
    ensures UpdatedKids(s, v, p, {j, k}, 8) == Updated(s', v', Kid(p, k), [])
  {
    hide Small, Region, Updated;
    var due := {j, k};
    NoKid(s, v, p, due, j);
    KidsNext(s, v, p, due, j, s.world, s, v);
    KidsBetween(s, v, p, due, j + 1, k);
    KidsNext(s, v, p, due, k, s.world, s', v');
    KidsRest(s, v, p, due, k + 1);
  }

  lemma {:induction false} KidsBetween(s: State, v: View, p: Path, due: set<Corner>, i: nat, n: nat)
    requires i <= n <= 8 && forall k <- due :: k < i || n <= k
    ensures UpdatedKids(s, v, p, due, n) == UpdatedKids(s, v, p, due, i)
  {
    hide Small, Region, Updated;
    if i < n {
      KidsBetween(s, v, p, due, i, n - 1);
      KidsNext(s, v, p, due, n - 1, s.world, s, v);
    }
  }

  lemma Finished(s: State, v: View, p: Path, queue: seq<GameObject>, s1: State, v1: View, moved: seq<GameObject>)
    requires PreparedAs(s, v, p, queue) == (s1, v1, moved)
    ensures var r := UpdatedKids(s1, v1, p, Kids(s1, p), 8);
      Updated(s, v, p, queue) == (MovedOn(r.0, p, moved, v1.boxes), r.1)
  {
    UpdatedIs(s, v, p, queue);
    hide Updated, PreparedAs, UpdatedKids, MovedOn;
  }

  /** One tick of a built top node that holds `t`, with three objects waiting, throws the last of them away: the first
      two share a new child, the third goes below it, and the first update of that child builds over it. All three lie
      well inside the world. */
  lemma TickLosesQueued(t: GameObject, x: GameObject, y: GameObject, z: GameObject, boxes: Boxes) returns (s: State)
    requires t != z && x != z && y != z
    requires x in boxes && boxes[x] == DEEP && y in boxes && boxes[y] == MIDDLE && z in boxes && boxes[z] == DEEP
    ensures s == State(WORLD, map[Top := [t]], map[Top := Age(-1, 8, true, false, true)])
    ensures z !in Total(Updated(s, View(boxes, {}, {}), Top, [x, y, z]).0.m)
  {
    hide Rebuilt, Total, Updated, Small, Region, FirstFit, SettledAs, Absent;
    s := State(WORLD, map[Top := [t]], map[Top := Age(-1, 8, true, false, true)]);
    var v := View(boxes, {}, {});
    var m3 := map[Top := [t], CORNER := [x, y], Kid(CORNER, 0) := [z]];
    var s1 := State(WORLD, m3, map[Top := DONE, CORNER := NEW_AGE, Kid(CORNER, 0) := NEW_AGE]);
    QueuedSettled(s, s1, t, x, y, z, boxes);
    assert MovedOf([t], {}) == [];
    StillPrepared(s, s1, v, Top, [x, y, z]);
    assert v.(dirty := v.dirty - Elements([])) == v;
    Finished(s, v, Top, [x, y, z], s1, v, []);
    Fits();
    assert Kids(s1, Top) == {0};
    OneKid(s1, v, Top, 0);
    FirstUpdateLosesObject(t, x, y, z, boxes);
    TotalAbsent(Rebuilt(boxes, WORLD, m3, CORNER), z);
    AbsentBuilt(s1, v, CORNER, z);
    AbsentTotal(Updated(s1, v, CORNER, []).0.m, z);
  }

  lemma TotalAbsent(m: map<Path, seq<GameObject>>, o: GameObject)
    requires o !in Total(m)
    ensures Absent(m, o)
  {
    NowhereIn(m, o);
  }

  lemma QueuedSettled(s: State, s1: State, t: GameObject, x: GameObject, y: GameObject, z: GameObject, boxes: Boxes)
    requires x in boxes && boxes[x] == DEEP && y in boxes && boxes[y] == MIDDLE && z in boxes && boxes[z] == DEEP
    requires s == State(WORLD, map[Top := [t]], map[Top := Age(-1, 8, true, false, true)])
    requires s1 == State(WORLD, map[Top := [t], CORNER := [x, y], Kid(CORNER, 0) := [z]],
                         map[Top := DONE, CORNER := NEW_AGE, Kid(CORNER, 0) := NEW_AGE])
    ensures SettledAs(s, boxes, Top, [x, y, z]) == s1
  {
    hide Home, Put, Rebuilt;
    var m3 := QueuedThree(t, x, y, z, boxes);
    BuiltSettled(s, boxes, Top, [x, y, z], m3);
    hide SettledAs;
    assert AgesFor(s.ages, m3.Keys)[Top := DONE] == s1.ages;
  }

  lemma BuiltSettled(s: State, boxes: Boxes, p: Path, queue: seq<GameObject>, m: map<Path, seq<GameObject>>)
    requires p in s.m && p in s.ages && s.ages[p].built && m == QueueIn(boxes, s.world, s.m, queue)
    ensures SettledAs(s, boxes, p, queue) == State(s.world, m,
      AgesFor(s.ages, m.Keys)[p := s.ages[p].(built := true, ready := true, queued := false)])
  {}

  lemma AbsentTotal(m: map<Path, seq<GameObject>>, o: GameObject)
    requires Absent(m, o)
    ensures o !in Total(m)
  {
    if o in Total(m) { TotalFrom(m, o); }
  }

  /** The three objects taken in one after the other. */
  lemma QueuedThree(t: GameObject, x: GameObject, y: GameObject, z: GameObject, boxes: Boxes)
    returns (m3: map<Path, seq<GameObject>>)
    requires x in boxes && boxes[x] == DEEP && y in boxes && boxes[y] == MIDDLE && z in boxes && boxes[z] == DEEP
    ensures m3 == QueueIn(boxes, WORLD, map[Top := [t]], [x, y, z])
    ensures m3 == map[Top := [t], CORNER := [x, y], Kid(CORNER, 0) := [z]]
  {
    hide Home, Put;
    var m0 := map[Top := [t]];
    var m1, m2;
    m1, m2, m3 := ThreeInserted(t, x, y, z);
    QueueMore(boxes, WORLD, m0, [], x);
    QueueMore(boxes, WORLD, m0, [x], y);
    QueueMore(boxes, WORLD, m0, [x, y], z);
    assert [] + [x] == [x] && [x] + [y] == [x, y] && [x, y] + [z] == [x, y, z];
  }

  const DONE := Age(-1, 8, true, true, false)

  /** A node that is done goes straight on to its children and then to what is to move. */
  lemma DoneNode(s: State, v: View, v': View, p: Path, moved: seq<GameObject>, due: set<Corner>)
    requires p in s.m && s.m.Keys == s.ages.Keys && s.ages[p] == DONE && v.marked == {}
    requires forall q <- s.ages.Keys :: s.ages[q].lifespan == -1
    requires MovedOf(s.m[p], v.dirty) == moved && v' == v.(dirty := v.dirty - Elements(moved))
    requires Kids(s, p) == due && (s.m[p] != [] || due != {})
    ensures var r := UpdatedKids(s, v', p, due, 8); Updated(s, v, p, []) == (MovedOn(r.0, p, moved, v'.boxes), r.1)
  {
    hide Updated, UpdatedKids, MovedOf, MovedOn;
    SettledAlone(s, v.boxes, p);
    assert s.ages[p := s.ages[p]] == s.ages;
    hide SettledAs;
    StillPrepared(s, s, v, p, []);
    Finished(s, v, p, [], s, v', moved);
  }

  /** Corner 0 is updated first: its three objects leave in the order of its list. */
  lemma MoversLeave(b: GameObject, x: GameObject, y: GameObject, z: GameObject, boxes: Boxes, s0: State, s1: State,
                    s2: State, s3: State)
    requires x != y && x != z && y != z
    requires s0.m == map[Top := [], CORNER := [x, y, z], FAR := [b]] && s0.world == WORLD
    requires s0.ages == map[Top := DONE, CORNER := DONE, FAR := DONE]
    requires CORNER in s1.m && CORNER in s2.m && s1.m.Keys == s1.ages.Keys && s2.m.Keys == s2.ages.Keys
    requires Relocated(s0, s1, CORNER, x, BoxOf(boxes, x))
    requires Relocated(s1, s2, CORNER, y, BoxOf(boxes, y))
    requires Relocated(s2, s3, CORNER, z, BoxOf(boxes, z))
    ensures Updated(s0, View(boxes, {x, y, z}, {}), CORNER, []) == (s3, View(boxes, {}, {}))
  {
    hide Relocated, Updated, Rebuilt, Home, Put, Small, Region, FirstFit, RelocatedAs;
    var v, moved := View(boxes, {x, y, z}, {}), [x, y, z];
    AllMoved(x, y, z);
    assert {x, y, z} - Elements(moved) == {};
    var v' := View(boxes, {}, {});
    assert Kids(s0, CORNER) == {};
    DoneNode(s0, v, v', CORNER, moved, {});
    NoKid(s0, v', CORNER, {}, 8);
    RelocatedIs(s0, s1, CORNER, x, BoxOf(boxes, x));
    RelocatedIs(s1, s2, CORNER, y, BoxOf(boxes, y));
    RelocatedIs(s2, s3, CORNER, z, BoxOf(boxes, z));
    MovedThree(s0, s1, s2, s3, x, y, z, boxes);
  }

  lemma AllMoved(x: GameObject, y: GameObject, z: GameObject)
    requires x != y && x != z && y != z
    ensures MovedOf([x, y, z], {x, y, z}) == [x, y, z]
  {
    assert [x, y, z][..2] == [x, y] && [x, y][..1] == [x] && [x][..0] == [];
    assert MovedOf([x], {x, y, z}) == [x];
    assert MovedOf([x, y], {x, y, z}) == [x, y];
  }

  lemma MovedThree(s0: State, s1: State, s2: State, s3: State, x: GameObject, y: GameObject, z: GameObject,
                   boxes: Boxes)
    requires s1 == RelocatedAs(s0, CORNER, x, BoxOf(boxes, x)) && s2 == RelocatedAs(s1, CORNER, y, BoxOf(boxes, y))
    requires s3 == RelocatedAs(s2, CORNER, z, BoxOf(boxes, z))
    ensures MovedOn(s0, CORNER, [x, y, z], boxes) == s3
  {
    hide RelocatedAs;
    var moved := [x, y, z];
    MovedOnNone(s0, CORNER, moved, boxes);
    MovedOnNext(s0, CORNER, moved, boxes, 0);
    MovedOnNext(s0, CORNER, moved, boxes, 1);
    MovedOnNext(s0, CORNER, moved, boxes, 2);
    assert moved[..3] == moved;
  }

  /** Corner 6 comes next and updates the child it now has, which was never built. */
  lemma FarLoses(b: GameObject, x: GameObject, y: GameObject, z: GameObject, boxes: Boxes, s: State)
    requires b != z && x != z && y != z && x in boxes && boxes[x] == FAR_DEEP && s.world == WORLD
    requires s.m == map[Top := [], CORNER := [], FAR := [b], OUTER := [x, y], Kid(OUTER, 6) := [z]]
    requires s.ages == map[Top := DONE, CORNER := DONE, FAR := DONE, OUTER := NEW_AGE, Kid(OUTER, 6) := NEW_AGE]
    ensures Absent(Updated(s, View(boxes, {}, {}), FAR, []).0.m, z)
  {
    hide Updated, Rebuilt, Small, Region, FirstFit, Absent, Total;
    var v := View(boxes, {}, {});
    assert MovedOf([b], {}) == [] && v.(dirty := v.dirty - Elements([])) == v;
    assert Kids(s, FAR) == {6};
    DoneNode(s, v, v, FAR, [], {6});
    FarFits();
    OneKid(s, v, FAR, 6);
    MoverLost(b, x, y, z, boxes, s.m);
    TotalAbsent(Rebuilt(boxes, WORLD, s.m, OUTER), z);
    AbsentBuilt(s, v, OUTER, z);
  }

  /** Three objects of one child move to another child that is updated after it. The first two share a new node, the
      third goes below it, and the update of that node, later in the same tick, throws the third away: one tick of a
      fully built tree with an empty queue loses an object that lies well inside the world. With fewer than three
      objects astray none is lost. */
  lemma TickLosesMover(b: GameObject, x: GameObject, y: GameObject, z: GameObject, boxes: Boxes) returns (s0: State)
    requires b != x && b != y && b != z && x != y && x != z && y != z
    requires x in boxes && boxes[x] == FAR_DEEP && y in boxes && boxes[y] == FAR_MIDDLE && z in boxes
      && boxes[z] == FAR_DEEP
    ensures s0 == State(WORLD, map[Top := [], CORNER := [x, y, z], FAR := [b]],
                        map[Top := DONE, CORNER := DONE, FAR := DONE])
    ensures Astray(s0, boxes, {x, y, z}) == {x, y, z} && WORLD.Contains(boxes[z])
    ensures z in Total(s0.m) && z !in Total(Updated(s0, View(boxes, {x, y, z}, {}), Top, []).0.m)
  {
    hide Region, Small, FirstFit, Home, Start, Rebuilt, Total, Astray, Relocated, Put, Updated, SettledAs, Absent;
    FarFits();
    MoversHomes(b, x, y, z);
    s0 := State(WORLD, map[Top := [], CORNER := [x, y, z], FAR := [b]], map[Top := DONE, CORNER := DONE, FAR := DONE]);
    var s1 := State(WORLD, map[Top := [], CORNER := [y, z], FAR := [b], OUTER := [x]], s0.ages[OUTER := NEW_AGE]);
    var s2 := State(WORLD, map[Top := [], CORNER := [z], FAR := [b], OUTER := [x, y]], s1.ages);
    var s3 := State(WORLD, map[Top := [], CORNER := [], FAR := [b], OUTER := [x, y], Kid(OUTER, 6) := [z]],
                    s2.ages[Kid(OUTER, 6) := NEW_AGE]);
    assert s0.m[CORNER := [y, z]] == map[Top := [], CORNER := [y, z], FAR := [b]];
    assert s1.m[CORNER := [z]] == map[Top := [], CORNER := [z], FAR := [b], OUTER := [x]];
    assert s2.m[CORNER := []] == map[Top := [], CORNER := [], FAR := [b], OUTER := [x, y]];
    MoversPut(b, x, y, z);
    MoverStep(s0, s1, x, [y, z], FAR_DEEP, OUTER);
    MoverStep(s1, s2, y, [z], FAR_MIDDLE, OUTER);
    MoverStep(s2, s3, z, [], FAR_DEEP, Kid(OUTER, 6));
    MoversAstray(s0, boxes, b, x, y, z);
    assert z in s0.m[CORNER];
    TotalHas(s0.m, CORNER, z);
    MoversLeave(b, x, y, z, boxes, s0, s1, s2, s3);
    FarLoses(b, x, y, z, boxes, s3);
    TopGoes(s0, s3, boxes, x, y, z);
    AbsentTotal(Updated(s3, View(boxes, {}, {}), FAR, []).0.m, z);
  }

  /** The top holds nothing to move and updates its two children in their order. */
  lemma TopGoes(s0: State, s3: State, boxes: Boxes, x: GameObject, y: GameObject, z: GameObject)
    requires s0.m.Keys == {Top, CORNER, FAR} && s0.m[Top] == [] && s0.world == s3.world == WORLD
    requires s0.ages == map[Top := DONE, CORNER := DONE, FAR := DONE]
    requires Updated(s0, View(boxes, {x, y, z}, {}), CORNER, []) == (s3, View(boxes, {}, {}))
    ensures Updated(s0, View(boxes, {x, y, z}, {}), Top, []) == Updated(s3, View(boxes, {}, {}), FAR, [])
  {
    hide Updated, Region, Small;
    var v := View(boxes, {x, y, z}, {});
    assert MovedOf([], v.dirty) == [] && v.(dirty := v.dirty - Elements([])) == v;
    assert Kids(s0, Top) == {0, 6};
    DoneNode(s0, v, v, Top, [], {0, 6});
    FarFits();
    TopRegion();
    TwoKids(s0, v, Top, 0, 6, s3, View(boxes, {}, {}));
  }

  /** An object of the top node that moved into an octant without a node: after the tick it is in a new node there,
      which is not built before the next tick and answers no query until then. */
  lemma MovedUnseen(t: GameObject, x: GameObject, boxes: Boxes)
    requires t != x && x in boxes && boxes[x] == DEEP
    ensures Updated(State(WORLD, map[Top := [t, x]], map[Top := DONE]), View(boxes, {x}, {}), Top, []) ==
      (State(WORLD, map[Top := [t], CORNER := [x]], map[Top := DONE, CORNER := NEW_AGE]), View(boxes, {}, {}))
  {
    hide Updated, Home, Small, Region, FirstFit, Put, Start, Relocated, RelocatedAs;
    var s, s' := State(WORLD, map[Top := [t, x]], map[Top := DONE]),
      State(WORLD, map[Top := [t], CORNER := [x]], map[Top := DONE, CORNER := NEW_AGE]);
    var v, v' := View(boxes, {x}, {}), View(boxes, {}, {});
    assert MovedOf([t, x], {x}) == [x] by { OneMoved(t, x); }
    assert v' == v.(dirty := v.dirty - Elements([x]));
    assert Kids(s, Top) == {};
    DoneNode(s, v, v', Top, [x], {});
    NoKid(s, v', Top, {}, 8);
    TopMoves(t, x, s, s');
    RelocatedIs(s, s', Top, x, DEEP);
    MovedOnNone(s, Top, [x], boxes);
    MovedOnNext(s, Top, [x], boxes, 0);
    assert [x][..1] == [x];
  }

  lemma OneMoved(t: GameObject, x: GameObject)
    requires t != x
    ensures MovedOf([t, x], {x}) == [x]
  {
    assert [t, x][..1] == [t] && [t][..0] == [];
    assert MovedOf([t], {x}) == [];
  }

  lemma TopMoves(t: GameObject, x: GameObject, s: State, s': State)
    requires t != x && s == State(WORLD, map[Top := [t, x]], map[Top := DONE])
    requires s' == State(WORLD, map[Top := [t], CORNER := [x]], map[Top := DONE, CORNER := NEW_AGE])
    ensures Relocated(s, s', Top, x, DEEP)
  {
    hide Small, Region, FirstFit, Home;
    Fits();
    assert [t, x][1..] == [x] && [x][1..] == [];
    assert Without([t, x], x) == [t];
    assert s.m[Top := [t]] == map[Top := [t]];
    HomeDown(WORLD, map[Top := [t]], Top, DEEP);
    assert [] + [x] == [x];
    assert Put(map[Top := [t]], CORNER, x) == s'.m;
  }
}
