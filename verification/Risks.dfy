/** Which objects a tick can overwrite, and when it overwrites none. */
module Risks {
  import opened Geometry
  import opened Sequences
  import opened GameObjects
  import opened Places
  import opened Totals
  import opened Building
  import opened Aging

  /** The update of its node can do more to the object than leave it there or send it down: the node is still to be
      built, or the object moved out of the region of the node. */
  ghost predicate Risky(s: State, boxes: Boxes, movers: set<GameObject>, q: Path, o: GameObject)
    requires q in s.ages
  {
    !s.ages[q].built || (o in movers && !Region(s.world, q).Contains(BoxOf(boxes, o)))
  }

  /** All such objects at or below `p`. */
  ghost function Risk(s: State, boxes: Boxes, p: Path, movers: set<GameObject>): set<GameObject>
  {
    set q, o | q in s.m && q in s.ages && Below(p, q) && o in s.m[q] && Risky(s, boxes, movers, q, o) :: o
  }

  /** With fewer than three objects at risk or in the queue nothing is overwritten. */
  ghost predicate Tame(s: State, boxes: Boxes, p: Path, movers: set<GameObject>, queue: seq<GameObject>,
                       overwritten: multiset<GameObject>)
  {
    Once(Total(s.m) + multiset(queue)) && |Risk(s, boxes, p, movers) + Elements(queue)| < 3 ==>
      overwritten == multiset{}
  }

  /** The objects in `risk` were at risk already, or are in the queue. */
  ghost predicate Within(s: State, boxes: Boxes, p: Path, movers: set<GameObject>, queue: seq<GameObject>,
                         risk: set<GameObject>)
  {
    queue == [] || Once(Total(s.m) + multiset(queue)) ==> risk <= Risk(s, boxes, p, movers) + Elements(queue)
  }

  /** What is at risk at `q` was so before, or is one of the objects in `risk`. */
  ghost predicate RiskKept(s: State, s': State, boxes: Boxes, movers: set<GameObject>, movers': set<GameObject>,
                           risk: set<GameObject>, q: Path)
    requires q in s'.m && q in s'.ages
  {
    forall o <- s'.m[q] | Risky(s', boxes, movers', q, o) ::
      o in risk || (q in s.m && q in s.ages && o in s.m[q] && Risky(s, boxes, movers, q, o))
  }

  /** Outside the subtree at `p` only objects that were at risk in it come to be at risk. */
  ghost predicate Flows(s: State, s': State, p: Path, boxes: Boxes, movers: set<GameObject>, movers': set<GameObject>)
  {
    forall q <- s'.m.Keys | q in s'.ages && !Below(p, q) ::
      RiskKept(s, s', boxes, movers, movers', Risk(s, boxes, p, movers), q)
  }

  /** The child on the way to `q` is still to be updated. */
  ghost predicate Due(p: Path, due: set<Corner>, n: nat, q: Path)
  {
    Below(p, q) && q != p && Toward(p, q) in due && Toward(p, q) >= n
  }

  /** The same while the children of `p` are updated, for the children that are still to be updated too. */
  ghost predicate Drifts(s: State, s': State, p: Path, due: set<Corner>, n: nat, boxes: Boxes, movers: set<GameObject>,
                         movers': set<GameObject>)
  {
    forall q <- s'.m.Keys | q in s'.ages && (!Below(p, q) || Due(p, due, n, q)) ::
      RiskKept(s, s', boxes, movers, movers', Risk(s, boxes, p, movers), q)
  }

  /** Of the objects in `all`, those that are outside the region of `p`. */
  ghost function Leavers(world: BoundingBox, boxes: Boxes, p: Path, all: set<GameObject>): set<GameObject>
  {
    set o | o in all && !Region(world, p).Contains(BoxOf(boxes, o))
  }

  /** Outside the subtree at `p` only leavers arrive. */
  ghost predicate Landed(s: State, s': State, p: Path, boxes: Boxes, all: set<GameObject>)
  {
    forall q <- s'.m.Keys | !Below(p, q) :: forall o <- s'.m[q] ::
      o in Leavers(s.world, boxes, p, all) || (q in s.m && o in s.m[q])
  }

  /** All nodes at or below `p` are built. */
  ghost predicate AllBuilt(s: State, p: Path)
  {
    forall q <- s.m.Keys | Below(p, q) && q in s.ages :: s.ages[q].built
  }

  /** So are all below it but for the children that are still to be updated. */
  ghost predicate BuiltSoFar(s: State, p: Path, due: set<Corner>, n: nat)
  {
    forall q <- s.m.Keys | Below(p, q) && q != p && !Due(p, due, n, q) && q in s.ages :: s.ages[q].built
  }

  // ----- building a node

  /** All that is stored at or below a node that is still to be built is at risk. */
  lemma UnbuiltRisk(s: State, boxes: Boxes, p: Path, movers: set<GameObject>)
    requires Sound(s.m, s.ages) && p in s.m && !s.ages[p].built
    ensures forall q <- s.m.Keys | Below(p, q) :: forall o <- s.m[q] :: o in Risk(s, boxes, p, movers)
  {
    hide SoundAt, Region;
    forall q <- s.m.Keys | Below(p, q) ensures forall o <- s.m[q] :: o in Risk(s, boxes, p, movers) {
      UnbuiltBelow(s.m, s.ages, p, q);
    }
  }

  lemma BuiltFrom(boxes: Boxes, world: BoundingBox, p: Path, objects: seq<GameObject>, q: Path)
    requires q in Built(boxes, world, p, objects)
    ensures forall o <- Built(boxes, world, p, objects)[q] :: o in objects
  {
    hide Built, Region, Total;
    var b := Built(boxes, world, p, objects);
    BuiltConserves(boxes, world, p, objects);
    forall o <- b[q] ensures o in objects {
      TotalHas(b, q, o);
      assert o in multiset(objects);
    }
  }

  /** Building puts no further object at risk. */
  lemma RebuiltRisk(s: State, s': State, boxes: Boxes, p: Path, movers: set<GameObject>)
    requires Sound(s.m, s.ages) && p in s.m && !s.ages[p].built
    requires s'.m == Rebuilt(boxes, s.world, s.m, p)
    ensures Risk(s', boxes, p, movers) <= Risk(s, boxes, p, movers)
  {
    hide Built, Region, Discarded, Risky, SoundAt;
    UnbuiltRisk(s, boxes, p, movers);
    forall q, o | q in s'.m && Below(p, q) && o in s'.m[q] ensures o in Risk(s, boxes, p, movers) {
      if q in Built(boxes, s.world, p, s.m[p]) {
        BuiltFrom(boxes, s.world, p, s.m[p], q);
        BelowRefl(p);
        assert o in s.m[p];
      }
    }
  }

  /** A node that throws something away holds at least two objects: a single one is settled or fits no octant. */
  lemma FillsTwo(boxes: Boxes, r: BoundingBox, objects: seq<GameObject>, k: Corner)
    requires r.Proper() && Fills(boxes, r, objects, k)
    ensures |objects| >= 2
  {
    hide Octant, FirstFit;
    var down := Fitting(boxes, r, objects, k);
    var o := down[0];
    assert o in objects && Slot(boxes, r, o) == k;
    OctantHalves(r, k);
    ContainsTransitive(r, Octant(r, k), BoxOf(boxes, o));
  }

  lemma ThreeAtLeast<T>(a: set<T>, x: T, y: T, z: T)
    requires x in a && y in a && z in a && x != y && x != z && y != z
    ensures |a| >= 3
  {
    assert {x, y, z} <= a;
    SubsetSize({x, y, z}, a);
  }

  lemma {:induction false} SubsetSize<T>(a: set<T>, b: set<T>)
    requires a <= b
    ensures |a| <= |b|
    decreases a
  {
    if a != {} {
      var x :| x in a;
      SubsetSize(a - {x}, b - {x});
    }
  }

  /** Objects of different nodes, or at different places of one node, differ when nothing is stored twice. */
  lemma StoredApart(m: map<Path, seq<GameObject>>, p: Path, q: Path, i: nat, j: nat)
    requires Once(Total(m)) && p in m && q in m && i < |m[p]| && j < |m[q]| && (p != q || i != j)
    ensures m[p][i] != m[q][j]
  {
    var x := m[p][i];
    TotalWithout(m, p);
    assert x in multiset(m[p]) && x in Total(m);
    if p != q && m[q][j] == x {
      TotalHas(m - {p}, q, x);
    } else if p == q && m[q][j] == x {
      TwicePlaced(m[p], i, j);
    }
  }

  lemma TwicePlaced<T>(s: seq<T>, i: nat, j: nat)
    requires i < |s| && j < |s| && i != j && s[i] == s[j]
    ensures multiset(s)[s[i]] >= 2
  {
    if i > j {
      TwicePlaced(s, j, i);
    } else {
      assert s == s[..i] + [s[i]] + s[i + 1..j] + [s[j]] + s[j + 1..];
    }
  }

  /** To overwrite an object takes three: two in the node that is built, one below it. */
  lemma RebuiltTame(s: State, boxes: Boxes, p: Path, movers: set<GameObject>)
    requires Sound(s.m, s.ages) && p in s.m && !s.ages[p].built && s.world.Proper()
    ensures Tame(s, boxes, p, movers, [], Total(Overwritten(boxes, s.world, s.m, p)))
  {
    hide Region, SoundAt, Fills, Risky, Total, Risk;
    var lost := Overwritten(boxes, s.world, s.m, p);
    assert Total(s.m) + multiset([]) == Total(s.m);
    if Once(Total(s.m)) && Total(lost) != multiset{} {
      var z :| z in Total(lost);
      TotalFrom(lost, z);
      var q :| q in lost && z in lost[q];
      var j :| 0 <= j < |lost[q]| && lost[q][j] == z;
      RegionProper(s.world, p);
      FillsTwo(boxes, Region(s.world, p), s.m[p], Toward(p, q));
      StoredApart(s.m, p, p, 0, 1);
      StoredApart(s.m, p, q, 0, j);
      StoredApart(s.m, p, q, 1, j);
      UnbuiltRisk(s, boxes, p, movers);
      BelowRefl(p);
      ThreeAtLeast(Risk(s, boxes, p, movers) + Elements([]), s.m[p][0], s.m[p][1], z);
    }
  }

  /** What is tame for fewer objects at risk is tame for more. */
  lemma TameLess(s: State, p: Path, movers: set<GameObject>, queue: seq<GameObject>, s1: State, p1: Path,
                 movers1: set<GameObject>, boxes: Boxes, overwritten: multiset<GameObject>)
    requires Tame(s1, boxes, p1, movers1, [], overwritten)
    requires Within(s, boxes, p, movers, queue, Risk(s1, boxes, p1, movers1))
    requires Total(s1.m) <= Total(s.m) + multiset(queue)
    ensures Tame(s, boxes, p, movers, queue, overwritten)
  {
    hide Risk, Total, OnceBut;
    if Once(Total(s.m) + multiset(queue)) {
      var risk1 := Risk(s1, boxes, p1, movers1) + Elements([]);
      assert risk1 == Risk(s1, boxes, p1, movers1);
      SubsetSize(risk1, Risk(s, boxes, p, movers) + Elements(queue));
      assert Total(s1.m) + multiset([]) == Total(s1.m);
      OnceLess(Total(s1.m), Total(s.m) + multiset(queue), {});
    }
  }

  lemma TameSum(s: State, p: Path, movers: set<GameObject>, queue: seq<GameObject>, boxes: Boxes,
                o1: multiset<GameObject>, o2: multiset<GameObject>)
    requires Tame(s, boxes, p, movers, queue, o1) && Tame(s, boxes, p, movers, queue, o2)
    ensures Tame(s, boxes, p, movers, queue, o1 + o2)
  {
    hide Risk, Total, Once;
  }

  lemma WithinSelf(s: State, boxes: Boxes, p: Path, movers: set<GameObject>, risk: set<GameObject>)
    requires risk <= Risk(s, boxes, p, movers)
    ensures Within(s, boxes, p, movers, [], risk)
  {
    hide Risk;
  }

  lemma TameNone(s: State, boxes: Boxes, p: Path, movers: set<GameObject>, queue: seq<GameObject>)
    ensures Tame(s, boxes, p, movers, queue, multiset{})
  {
    hide Risk, Once;
  }

  /** Of the queue of an unbuilt node only the queued objects come to be at risk. */
  lemma JoinedRisk(s: State, boxes: Boxes, p: Path, movers: set<GameObject>, queue: seq<GameObject>)
    requires p in s.m
    ensures Risk(s.(m := s.m[p := s.m[p] + queue]), boxes, p, movers) <= Risk(s, boxes, p, movers) + Elements(queue)
  {
    hide Region, BoxOf, Below;
  }

  /** So of the queue of a built node: whatever is not queued was stored before, and nothing is stored twice. */
  lemma QueueRisk(s: State, s': State, boxes: Boxes, p: Path, movers: set<GameObject>, queue: seq<GameObject>)
    requires Once(Total(s.m) + multiset(queue)) && Total(s'.m) <= Total(s.m) + multiset(queue)
    requires s'.world == s.world && s.m.Keys == s.ages.Keys
    requires forall q <- s.m.Keys ::
      q in s'.m && s.m[q] <= s'.m[q] && q in s'.ages && s'.ages[q].built == s.ages[q].built
    ensures Risk(s', boxes, p, movers) <= Risk(s, boxes, p, movers) + Elements(queue)
  {
    hide Region, BoxOf, Total, OnceBut;
    OnceLess(Total(s'.m), Total(s.m) + multiset(queue), {});
    forall q, o | q in s'.m && q in s'.ages && Below(p, q) && o in s'.m[q] && Risky(s', boxes, movers, q, o)
      && o !in queue
      ensures o in Risk(s, boxes, p, movers)
    {
      TotalHas(s'.m, q, o);
      assert o in Total(s.m) + multiset(queue);
      TotalFrom(s.m, o);
      var x :| x in s.m && o in s.m[x];
      StoredOnce(s'.m, x, q, o);
    }
  }

  lemma StoredOnce(m: map<Path, seq<GameObject>>, p: Path, q: Path, o: GameObject)
    requires Once(Total(m)) && p in m && q in m && o in m[p] && o in m[q]
    ensures p == q
  {
    hide Total, Once;
    var i :| 0 <= i < |m[p]| && m[p][i] == o;
    var j :| 0 <= j < |m[q]| && m[q][j] == o;
    if p != q { StoredApart(m, p, q, i, j); }
  }

  /** Nodes that lose objects and movers that become fewer put nothing at risk. */
  lemma RiskLess(s: State, s': State, boxes: Boxes, p: Path, movers: set<GameObject>, movers': set<GameObject>)
    requires s'.world == s.world && movers' <= movers && s.m.Keys == s.ages.Keys
    requires forall q <- s'.m.Keys | q in s'.ages ::
      q in s.m && s'.ages[q].built == s.ages[q].built && forall o <- s'.m[q] :: o in s.m[q]
    ensures Risk(s', boxes, p, movers') <= Risk(s, boxes, p, movers)
  {
    hide Region, BoxOf;
  }

  // ----- the children, one after the other

  lemma DriftStart(s: State, p: Path, due: set<Corner>, boxes: Boxes, movers: set<GameObject>)
    ensures Drifts(s, s, p, due, 0, boxes, movers, movers)
  {
    hide Risky, Risk;
  }

  lemma DriftMore(s: State, s': State, p: Path, due: set<Corner>, n: nat, n': nat, boxes: Boxes,
                  movers: set<GameObject>, movers': set<GameObject>)
    requires Drifts(s, s', p, due, n, boxes, movers, movers') && n <= n'
    ensures Drifts(s, s', p, due, n', boxes, movers, movers')
  {
    hide RiskKept, Risk;
  }

  /** What is at risk in a child that is to be updated was at risk from the start. */
  lemma DriftRisk(s: State, s1: State, p: Path, due: set<Corner>, k: Corner, boxes: Boxes, movers: set<GameObject>,
                  movers1: set<GameObject>)
    requires Drifts(s, s1, p, due, k, boxes, movers, movers1) && k in due
    ensures Risk(s1, boxes, Kid(p, k), movers1) <= Risk(s, boxes, p, movers)
  {
    hide Risky;
    forall q, o | q in s1.m && q in s1.ages && Below(Kid(p, k), q) && o in s1.m[q] && Risky(s1, boxes, movers1, q, o)
      ensures o in Risk(s, boxes, p, movers)
    {
      KidsApart(p, k, q);
      assert RiskKept(s, s1, boxes, movers, movers1, Risk(s, boxes, p, movers), q);
    }
  }

  lemma DriftStep(s: State, s1: State, s2: State, p: Path, due: set<Corner>, k: Corner, boxes: Boxes,
                  movers: set<GameObject>, movers1: set<GameObject>, movers2: set<GameObject>)
    requires s1.m.Keys == s1.ages.Keys
    requires Drifts(s, s1, p, due, k, boxes, movers, movers1) && k in due
    requires Flows(s1, s2, Kid(p, k), boxes, movers1, movers2)
    ensures Drifts(s, s2, p, due, k + 1, boxes, movers, movers2)
  {
    DriftRisk(s, s1, p, due, k, boxes, movers, movers1);
    hide Risky, Risk;
    var risk := Risk(s, boxes, p, movers);
    forall q <- s2.m.Keys | q in s2.ages && (!Below(p, q) || Due(p, due, k + 1, q))
      ensures RiskKept(s, s2, boxes, movers, movers2, risk, q)
    {
      if Below(Kid(p, k), q) { KidsApart(p, k, q); }
      assert RiskKept(s1, s2, boxes, movers1, movers2, Risk(s1, boxes, Kid(p, k), movers1), q);
      if q in s1.m { assert RiskKept(s, s1, boxes, movers, movers1, risk, q); }
    }
  }

  lemma BuiltStart(s: State, p: Path, due: set<Corner>)
    requires forall q <- s.m.Keys | Below(p, q) && q != p :: Toward(p, q) in due
    ensures BuiltSoFar(s, p, due, 0)
  {}

  lemma BuiltSkip(s: State, p: Path, due: set<Corner>, n: nat, n': nat)
    requires forall k <- due :: k < n || n' <= k
    ensures BuiltSoFar(s, p, due, n) ==> BuiltSoFar(s, p, due, n')
  {}

  lemma BuiltEnd(s: State, p: Path, due: set<Corner>)
    requires BuiltSoFar(s, p, due, 8) && p in s.ages && s.ages[p].built
    ensures AllBuilt(s, p)
  {}

  lemma BuiltStep(s1: State, s2: State, p: Path, due: set<Corner>, k: Corner)
    requires BuiltSoFar(s1, p, due, k) && AllBuilt(s2, Kid(p, k)) && s1.m.Keys == s1.ages.Keys
    requires Outside(s2.m, Kid(p, k)) == Outside(s1.m, Kid(p, k)) && AgesOutside(s1.ages, s2.ages, Kid(p, k))
    ensures BuiltSoFar(s2, p, due, k + 1)
  {
    OutsideKeys(s1.m, Kid(p, k));
    OutsideKeys(s2.m, Kid(p, k));
    forall q <- s2.m.Keys | Below(p, q) && q != p && !Due(p, due, k + 1, q) && q in s2.ages ensures s2.ages[q].built {
      if !Below(Kid(p, k), q) {
        assert q in Outside(s2.m, Kid(p, k));
        if Toward(p, q) == k { TowardBelow(p, k, q); }
      }
    }
  }

  lemma TowardBelow(p: Path, k: Corner, q: Path)
    requires Below(p, q) && q != p && Toward(p, q) == k
    ensures Below(Kid(p, k), q)
  {}

  // ----- the steps together

  /** What is at risk outside after the four steps of an update was at risk before or came out of the subtree. */
  lemma FlowsBy(s: State, s4: State, s5: State, s6: State, p: Path, due: set<Corner>, boxes: Boxes,
                movers: set<GameObject>, movers4: set<GameObject>, movers5: set<GameObject>, all: set<GameObject>)
    requires s4.world == s.world && s5.world == s4.world && s6.world == s5.world && movers4 <= movers
    requires s.m.Keys == s.ages.Keys && s5.m.Keys == s5.ages.Keys
    requires Outside(s4.m, p) == Outside(s.m, p) && AgesOutside(s.ages, s4.ages, p)
    requires Risk(s4, boxes, p, movers4) + Leavers(s.world, boxes, p, all) <= Risk(s, boxes, p, movers)
    requires Drifts(s4, s5, p, due, 8, boxes, movers4, movers5)
    requires Landed(s5, s6, p, boxes, all) && AgesOutside(s5.ages, s6.ages, p)
    ensures Flows(s, s6, p, boxes, movers, movers5)
  {
    hide Region, Risk, BoxOf;
    var risk, risk4 := Risk(s, boxes, p, movers), Risk(s4, boxes, p, movers4);
    OutsideKeys(s.m, p);
    OutsideKeys(s4.m, p);
    forall q <- s6.m.Keys | q in s6.ages && !Below(p, q) ensures RiskKept(s, s6, boxes, movers, movers5, risk, q) {
      forall o <- s6.m[q] | Risky(s6, boxes, movers5, q, o) && o !in risk
        ensures q in s.m && q in s.ages && o in s.m[q] && Risky(s, boxes, movers, q, o)
      {
        assert o !in Leavers(s5.world, boxes, p, all);
        assert q in s5.m && o in s5.m[q] && s6.ages[q] == s5.ages[q];
        assert RiskKept(s4, s5, boxes, movers4, movers5, risk4, q);
        assert q in Outside(s4.m, p);
        assert q in Outside(s.m, p) && s4.ages[q] == s.ages[q];
      }
    }
  }
}
