/** Exactly what one `Update` makes of a tree. */
module Updating {
  import opened Geometry
  import opened Sequences
  import opened GameObjects
  import opened Places
  import opened Totals
  import opened Building
  import opened Aging
  import opened Risks
  import opened Settling
  import opened Ticking

  // ----- the node itself

  /** The objects that are not marked, in their order. */
  function Kept(objects: seq<GameObject>, marked: set<GameObject>): seq<GameObject>
  {
    if objects == [] then []
    else (if objects[0] in marked then [] else [objects[0]]) + Kept(objects[1..], marked)
  }

  /** The dirty objects in the order in which they first occur. */
  function MovedOf(objects: seq<GameObject>, dirty: set<GameObject>): seq<GameObject>
  {
    if objects == [] then []
    else
      var n := |objects| - 1;
      MovedOf(objects[..n], dirty) +
        if objects[n] in dirty && objects[n] !in objects[..n] then [objects[n]] else []
  }

  /** The expiry rule at the first `n` corners. */
  ghost function ExpiredUpTo(s: State, p: Path, n: nat): (r: State)
    requires n <= 8
    ensures r.world == s.world
  {
    if n == 0 then s else Expired(ExpiredUpTo(s, p, n - 1), p, n - 1)
  }

  /** What happens at a node before its children are updated, and the objects that are to move. */
  ghost function PreparedAs(s: State, v: View, p: Path, queue: seq<GameObject>): (r: (State, View, seq<GameObject>))
    ensures r.0.world == s.world
  {
    if p !in s.m || p !in s.ages then (s, v, [])
    else
      var s1 := SettledAs(s, v.boxes, p, queue);
      if p !in s1.m || p !in s1.ages then (s, v, [])
      else
        var s2 := Aged(s1, p);
        var objects := Kept(s2.m[p], v.marked);
        var moved := MovedOf(objects, v.dirty);
        (ExpiredUpTo(Thinned(s2, p, objects), p, 8), v.(dirty := v.dirty - Elements(moved)), moved)
  }

  lemma {:induction false} MovedSeen(objects: seq<GameObject>, some: set<GameObject>, dirty: set<GameObject>)
    requires forall o <- objects :: o in some <==> o in dirty
    ensures MovedOf(objects, some) == MovedOf(objects, dirty)
  {
    if objects != [] { MovedSeen(objects[..|objects| - 1], some, dirty); }
  }

  lemma MovedNone(objects: seq<GameObject>, dirty: set<GameObject>)
    ensures MovedOf(objects[..0], dirty) == []
  {}

  lemma MovedNext(objects: seq<GameObject>, dirty: set<GameObject>, i: nat)
    requires i < |objects|
    ensures MovedOf(objects[..i + 1], dirty) ==
      MovedOf(objects[..i], dirty) + if objects[i] in dirty && objects[i] !in objects[..i] then [objects[i]] else []
    ensures forall o :: o in objects[..i + 1] <==> o in objects[..i] || o == objects[i]
  {
    assert objects[..i + 1][..i] == objects[..i];
    assert objects[..i + 1] == objects[..i] + [objects[i]];
  }

  /** Every dirty object of the list, once. */
  lemma {:induction false} MovedIs(objects: seq<GameObject>, dirty: set<GameObject>)
    ensures Distinct(MovedOf(objects, dirty))
    ensures forall o :: o in MovedOf(objects, dirty) <==> o in objects && o in dirty
  {
    if objects != [] {
      var n := |objects| - 1;
      MovedIs(objects[..n], dirty);
      assert objects == objects[..n] + [objects[n]];
    }
  }

  lemma ExpiredNext(s: State, p: Path, k: Corner)
    ensures ExpiredUpTo(s, p, k + 1) == Expired(ExpiredUpTo(s, p, k), p, k)
  {}

  lemma ExpiredNone(s: State, p: Path)
    ensures ExpiredUpTo(s, p, 0) == s
  {}

  lemma ExpiredAbsent(s: State, p: Path, k: Corner)
    requires Kid(p, k) !in s.m
    ensures Expired(s, p, k) == s
  {}

  /** Where no child is left the rule does nothing. */
  lemma {:induction false} ExpiredRest(s: State, p: Path, n: nat)
    requires n <= 8 && forall k: Corner | n <= k :: Kid(p, k) !in ExpiredUpTo(s, p, n).m
    ensures ExpiredUpTo(s, p, 8) == ExpiredUpTo(s, p, n)
    decreases 8 - n
  {
    if n < 8 {
      ExpiredAbsent(ExpiredUpTo(s, p, n), p, n);
      assert ExpiredUpTo(s, p, n + 1) == ExpiredUpTo(s, p, n);
      ExpiredRest(s, p, n + 1);
    }
  }

  /** The steps up to the children amount to that. */
  lemma PreparedIs(s: State, s1: State, p: Path, v: View, v': View, pending: set<GameObject>, queue: seq<GameObject>,
                   objects: seq<GameObject>, moved: seq<GameObject>, rejected: multiset<GameObject>,
                   overwritten: multiset<GameObject>)
    requires p in s.m && p in s.ages && p in s1.m && p in s1.ages
    requires Settles(s, s1, p, v.boxes, pending + v.dirty, v.Movers(), queue, rejected, overwritten)
    requires Cleans(v, v', objects, moved)
    requires objects == Kept(s1.m[p], v.marked) && moved == MovedOf(objects, v.dirty)
    ensures PreparedAs(s, v, p, queue) == (ExpiredUpTo(Thinned(Aged(s1, p), p, objects), p, 8), v', moved)
  {
    hide Fine, Calm, Outside, AgesOutside, Total, Rejected, Stays, Risk, Tame, Within, SettledAs, ExpiredUpTo, Kept;
    hide MovedOf, NextAge, Leaf;
  }

  /** The objects of a settled node are known. */
  lemma SettledKnown(s: State, s1: State, p: Path, boxes: Boxes, exempt: set<GameObject>, movers: set<GameObject>,
                     queue: seq<GameObject>, rejected: multiset<GameObject>, overwritten: multiset<GameObject>)
    requires p in s.ages && p in s1.m && Settles(s, s1, p, boxes, exempt, movers, queue, rejected, overwritten)
    ensures forall o <- s1.m[p] :: o in boxes
  {
    hide Calm, Outside, AgesOutside, Total, Rejected, Stays, Risk, Tame, Within, SettledAs, Placed, Grown, Sound;
    forall o <- s1.m[p] ensures o in boxes { TotalHas(s1.m, p, o); }
  }

  // ----- moved objects

  /** An object taken out of its node and inserted from where its box leads. */
  ghost function RelocatedAs(s: State, p: Path, x: GameObject, box: BoundingBox): (r: State)
    ensures r.world == s.world
  {
    if p !in s.m then s
    else
      var m := s.m[p := Without(s.m[p], x)];
      var home := Home(s.world, m, Start(s.world, p, box), box);
      var m' := if home.Some? then Put(m, home.value, x) else m;
      State(s.world, m', AgesFor(s.ages, m'.Keys))
  }

  /** One after the other. */
  ghost function MovedOn(s: State, p: Path, moved: seq<GameObject>, boxes: Boxes): (r: State)
    ensures r.world == s.world
  {
    if moved == [] then s
    else
      var n := |moved| - 1;
      RelocatedAs(MovedOn(s, p, moved[..n], boxes), p, moved[n], BoxOf(boxes, moved[n]))
  }

  lemma RelocatedIs(s: State, s': State, p: Path, x: GameObject, box: BoundingBox)
    requires p in s.m && s.m.Keys == s.ages.Keys && Relocated(s, s', p, x, box)
    ensures s' == RelocatedAs(s, p, x, box)
  {
    hide Home, Start, Put, Without;
  }

  lemma MovedOnNone(s: State, p: Path, moved: seq<GameObject>, boxes: Boxes)
    ensures MovedOn(s, p, moved[..0], boxes) == s
  {}

  lemma MovedOnNext(s: State, p: Path, moved: seq<GameObject>, boxes: Boxes, i: nat)
    requires i < |moved|
    ensures MovedOn(s, p, moved[..i + 1], boxes) ==
      RelocatedAs(MovedOn(s, p, moved[..i], boxes), p, moved[i], BoxOf(boxes, moved[i]))
  {
    hide RelocatedAs;
    assert moved[..i + 1][..i] == moved[..i];
  }

  // ----- the whole

  ghost function Kids(s: State, p: Path): set<Corner>
  {
    set k: Corner | Kid(p, k) in s.m
  }

  /** The children in `due` up to corner `n`, in their order. */
  ghost function UpdatedKids(s: State, v: View, p: Path, due: set<Corner>, n: nat): (r: (State, View))
    requires n <= 8
    ensures r.0.world == s.world
    decreases Weight(Region(s.world, p)), n
  {
    if n == 0 then (s, v)
    else
      var r := UpdatedKids(s, v, p, due, n - 1);
      if n - 1 in due && !Small(Region(s.world, p)) then
        RegionLighter(s.world, p, n - 1);
        Updated(r.0, r.1, Kid(p, n - 1), [])
      else r
  }

  /** The children that are there, then the moved objects. */
  ghost function FinishedAs(s: State, v: View, p: Path, moved: seq<GameObject>): (r: (State, View))
    ensures r.0.world == s.world
    decreases Weight(Region(s.world, p)), 9
  {
    var r := UpdatedKids(s, v, p, Kids(s, p), 8);
    (MovedOn(r.0, p, moved, v.boxes), r.1)
  }

  /** `Update` of the node at `p`. */
  ghost function Updated(s: State, v: View, p: Path, queue: seq<GameObject>): (r: (State, View))
    ensures r.0.world == s.world
    decreases Weight(Region(s.world, p)), 10
  {
    var r := PreparedAs(s, v, p, queue);
    FinishedAs(r.0, r.1, p, r.2)
  }

  lemma KidsNone(s: State, v: View, p: Path, due: set<Corner>)
    ensures UpdatedKids(s, v, p, due, 0) == (s, v)
  {}

  lemma KidsNext(s: State, v: View, p: Path, due: set<Corner>, k: Corner, world: BoundingBox, s': State, v': View)
    ensures s.world == world && k in due && !Small(Region(world, p)) && (s', v') == UpdatedKids(s, v, p, due, k) ==>
      UpdatedKids(s, v, p, due, k + 1) == Updated(s', v', Kid(p, k), [])
    ensures k !in due ==> UpdatedKids(s, v, p, due, k + 1) == UpdatedKids(s, v, p, due, k)
  {
    hide Updated, Small, Region;
  }

  lemma {:induction false} KidsRest(s: State, v: View, p: Path, due: set<Corner>, n: nat)
    requires n <= 8 && forall k <- due :: k < n
    ensures UpdatedKids(s, v, p, due, 8) == UpdatedKids(s, v, p, due, n)
    decreases 8 - n
  {
    hide Updated, Small, Region;
    if n < 8 {
      KidsNext(s, v, p, due, n, s.world, s, v);
      KidsRest(s, v, p, due, n + 1);
    }
  }

  lemma UpdatedIs(s: State, v: View, p: Path, queue: seq<GameObject>)
    ensures var r := PreparedAs(s, v, p, queue); Updated(s, v, p, queue) == FinishedAs(r.0, r.1, p, r.2)
  {
    hide PreparedAs, FinishedAs;
  }

  lemma PartwayWorld(s: State, s': State, p: Path, v: View, v': View, pending: set<GameObject>, due: set<Corner>,
                     n: nat, gone: multiset<GameObject>, rejected: multiset<GameObject>,
                     overwritten: multiset<GameObject>)
    requires Partway(s, s', p, v, v', pending, due, n, gone, rejected, overwritten)
    ensures s'.world == s.world
  {
    hide Fine, Total, Calm, Outside, Grew, AgesOutside, Visited, Spotless, Stays, Drifts, Tame, BuiltSoFar, Rejected;
  }

  // ----- nothing appears

  ghost predicate Absent(m: map<Path, seq<GameObject>>, o: GameObject)
  {
    forall q <- m.Keys :: o !in m[q]
  }

  lemma AbsentPut(m: map<Path, seq<GameObject>>, h: Path, x: GameObject, o: GameObject)
    requires Absent(m, o) && x != o
    ensures Absent(Put(m, h, x), o)
  {}

  lemma AbsentRebuilt(boxes: Boxes, world: BoundingBox, m: map<Path, seq<GameObject>>, p: Path, o: GameObject)
    requires p in m && Absent(m, o)
    ensures Absent(Rebuilt(boxes, world, m, p), o)
  {
    hide Built, Discarded;
    var n := Rebuilt(boxes, world, m, p);
    forall q <- n.Keys ensures o !in n[q] {
      var built := Built(boxes, world, p, m[p]);
      if q in built && o in built[q] {
        TotalHas(built, q, o);
        BuiltConserves(boxes, world, p, m[p]);
      }
    }
  }

  lemma {:induction false} AbsentQueue(boxes: Boxes, world: BoundingBox, m: map<Path, seq<GameObject>>,
                                       queue: seq<GameObject>, o: GameObject)
    requires Absent(m, o) && o !in queue
    ensures Absent(QueueIn(boxes, world, m, queue), o)
  {
    hide Put, Home, Absent;
    if queue != [] {
      var last := |queue| - 1;
      AbsentQueue(boxes, world, m, queue[..last], o);
      var n := QueueIn(boxes, world, m, queue[..last]);
      var home := Home(world, n, Top, BoxOf(boxes, queue[last]));
      if home.Some? { AbsentPut(n, home.value, queue[last], o); }
    }
  }

  lemma AbsentSettled(s: State, boxes: Boxes, p: Path, queue: seq<GameObject>, o: GameObject)
    requires p in s.m && p in s.ages && Absent(s.m, o) && o !in queue
    ensures Absent(SettledAs(s, boxes, p, queue).m, o)
  {
    hide Rebuilt, QueueIn;
    if s.ages[p].built {
      AbsentQueue(boxes, s.world, s.m, queue, o);
    } else {
      AbsentRebuilt(boxes, s.world, s.m[p := s.m[p] + queue], p, o);
    }
  }

  lemma {:induction false} KeptHas(objects: seq<GameObject>, marked: set<GameObject>, o: GameObject)
    ensures o in Kept(objects, marked) <==> o in objects && o !in marked
  {
    if objects != [] { KeptHas(objects[1..], marked, o); }
  }

  lemma {:induction false} MovedHas(objects: seq<GameObject>, dirty: set<GameObject>, o: GameObject)
    ensures o in MovedOf(objects, dirty) <==> o in objects && o in dirty
  {
    if objects != [] {
      var n := |objects| - 1;
      MovedHas(objects[..n], dirty, o);
      assert objects == objects[..n] + [objects[n]];
    }
  }

  lemma {:induction false} AbsentExpired(s: State, p: Path, n: nat, o: GameObject)
    requires n <= 8 && Absent(s.m, o)
    ensures Absent(ExpiredUpTo(s, p, n).m, o)
  {
    if n > 0 { AbsentExpired(s, p, n - 1, o); }
  }

  lemma AbsentThinned(s: State, v: View, p: Path, o: GameObject)
    requires p in s.m && p in s.ages && Absent(s.m, o)
    ensures var objects := Kept(s.m[p], v.marked);
      Absent(ExpiredUpTo(Thinned(Aged(s, p), p, objects), p, 8).m, o) && o !in MovedOf(objects, v.dirty)
  {
    hide ExpiredUpTo, NextAge, Leaf;
    var objects := Kept(s.m[p], v.marked);
    KeptHas(s.m[p], v.marked, o);
    MovedHas(objects, v.dirty, o);
    AbsentExpired(Thinned(Aged(s, p), p, objects), p, 8, o);
  }

  /** What is stored nowhere and does not wait is stored nowhere when the node is prepared, and does not move. */
  lemma AbsentPrepared(s: State, v: View, p: Path, queue: seq<GameObject>, o: GameObject)
    requires Absent(s.m, o) && o !in queue
    ensures var r := PreparedAs(s, v, p, queue); Absent(r.0.m, o) && o !in r.2
  {
    hide SettledAs, ExpiredUpTo, Kept, MovedOf, NextAge, Leaf;
    if p in s.m && p in s.ages {
      var s1 := SettledAs(s, v.boxes, p, queue);
      AbsentSettled(s, v.boxes, p, queue, o);
      if p in s1.m && p in s1.ages { AbsentThinned(s1, v, p, o); }
    }
  }

  lemma {:induction false} AbsentMoved(s: State, p: Path, moved: seq<GameObject>, boxes: Boxes, o: GameObject)
    requires Absent(s.m, o) && o !in moved
    ensures Absent(MovedOn(s, p, moved, boxes).m, o)
  {
    hide Put, Home, Start;
    if moved != [] {
      var n := |moved| - 1;
      AbsentMoved(s, p, moved[..n], boxes, o);
      AbsentRelocated(MovedOn(s, p, moved[..n], boxes), p, moved[n], BoxOf(boxes, moved[n]), o);
    }
  }

  lemma AbsentRelocated(s: State, p: Path, x: GameObject, box: BoundingBox, o: GameObject)
    requires Absent(s.m, o) && x != o
    ensures Absent(RelocatedAs(s, p, x, box).m, o)
  {
    hide Put, Home, Start;
    if p in s.m {
      var m := s.m[p := Without(s.m[p], x)];
      if x in s.m[p] { WithoutOne(s.m[p], x); } else { WithoutNone(s.m[p], x); }
      var home := Home(s.world, m, Start(s.world, p, box), box);
      if home.Some? { AbsentPut(m, home.value, x, o); }
    }
  }

  lemma {:induction false} AbsentKids(s: State, v: View, p: Path, due: set<Corner>, n: nat, o: GameObject)
    requires n <= 8 && Absent(s.m, o)
    ensures Absent(UpdatedKids(s, v, p, due, n).0.m, o)
    decreases Weight(Region(s.world, p)), n
  {
    hide Updated, Region, Small, Absent;
    if n > 0 {
      AbsentKids(s, v, p, due, n - 1, o);
      var r := UpdatedKids(s, v, p, due, n - 1);
      if n - 1 in due && !Small(Region(s.world, p)) {
        RegionLighter(s.world, p, n - 1);
        AbsentUpdated(r.0, r.1, Kid(p, n - 1), [], o);
      }
    }
  }

  lemma {:induction false} AbsentFinished(s: State, v: View, p: Path, moved: seq<GameObject>, o: GameObject)
    requires Absent(s.m, o) && o !in moved
    ensures Absent(FinishedAs(s, v, p, moved).0.m, o)
    decreases Weight(Region(s.world, p)), 9
  {
    hide UpdatedKids, MovedOn, Region, Absent;
    AbsentKids(s, v, p, Kids(s, p), 8, o);
    AbsentMoved(UpdatedKids(s, v, p, Kids(s, p), 8).0, p, moved, v.boxes, o);
  }

  /** No update brings in an object that was neither stored nor waiting. */
  lemma {:induction false} AbsentUpdated(s: State, v: View, p: Path, queue: seq<GameObject>, o: GameObject)
    requires Absent(s.m, o) && o !in queue
    ensures Absent(Updated(s, v, p, queue).0.m, o)
    decreases Weight(Region(s.world, p)), 10
  {
    hide PreparedAs, FinishedAs, Region, Absent;
    AbsentPrepared(s, v, p, queue, o);
    var r := PreparedAs(s, v, p, queue);
    AbsentFinished(r.0, r.1, p, r.2, o);
  }

  /** What the first build of a node throws away does not come back in its update. */
  lemma AbsentBuilt(s: State, v: View, p: Path, o: GameObject)
    requires p in s.m && p in s.ages && !s.ages[p].built && Absent(Rebuilt(v.boxes, s.world, s.m, p), o)
    ensures Absent(Updated(s, v, p, []).0.m, o)
  {
    assert s.m[p] + [] == s.m[p] && s.m[p := s.m[p]] == s.m;
    var s1 := SettledAs(s, v.boxes, p, []);
    TopKeepsSome(v.boxes, s.world, p, s.m[p]);
    assert p in s1.m && p in s1.ages && s1.m == Rebuilt(v.boxes, s.world, s.m, p);
    hide SettledAs, Rebuilt, FinishedAs, Updated, ExpiredUpTo, Kept, MovedOf, Region, Absent, NextAge, Leaf;
    AbsentThinned(s1, v, p, o);
    UpdatedIs(s, v, p, []);
    var r := PreparedAs(s, v, p, []);
    AbsentFinished(r.0, r.1, p, r.2, o);
  }
}
