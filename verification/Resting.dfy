/** A tick of a fully built tree in which nothing is to move, node by node. */
module Resting {
  import opened Geometry
  import opened Sequences
  import opened GameObjects
  import opened Places
  import opened Building
  import opened Aging
  import opened Risks
  import opened Settling
  import opened Ticking
  import opened Updating

  // ----- the expiry loop

  /** One of the first `n` children, with its lifespan run out. */
  ghost predicate RunOut(s: State, p: Path, n: nat, q: Path)
  {
    q.Kid? && q.up == p && q.corner < n && q in s.ages && s.ages[q].lifespan == 0
  }

  /** And that is empty. */
  ghost predicate Dropped(s: State, p: Path, n: nat, q: Path)
  {
    RunOut(s, p, n, q) && q in s.m && s.m[q] == []
  }

  lemma ExpiredHere(s: State, p: Path, k: Corner, q: Path)
    requires s.m.Keys == s.ages.Keys
    ensures var r := Expired(s, p, k);
      && (q in r.m <==> q in s.m && !(q == Kid(p, k) && s.ages[q].lifespan == 0 && s.m[q] == []))
      && r.m.Keys == r.ages.Keys
      && (q in r.m ==> r.m[q] == s.m[q])
      && (q in r.m && q == Kid(p, k) && s.ages[q].lifespan == 0 ==> r.ages[q] == s.ages[q].(lifespan := -1))
      && (q in r.m && !(q == Kid(p, k) && s.ages[q].lifespan == 0) ==> r.ages[q] == s.ages[q])
  {}

  lemma {:induction false} ExpiredAt(s: State, p: Path, n: nat, q: Path)
    requires n <= 8 && s.m.Keys == s.ages.Keys
    ensures var r := ExpiredUpTo(s, p, n);
      && r.m.Keys == r.ages.Keys
      && (q in r.m <==> q in s.m && !Dropped(s, p, n, q))
      && (q in r.m ==> r.m[q] == s.m[q])
      && (q in r.m ==> r.ages[q] == if RunOut(s, p, n, q) then s.ages[q].(lifespan := -1) else s.ages[q])
  {
    if n > 0 {
      ExpiredAt(s, p, n - 1, q);
      ExpiredNext(s, p, n - 1);
      ExpiredHere(ExpiredUpTo(s, p, n - 1), p, n - 1, q);
      hide ExpiredUpTo, Expired;
    }
  }

  /** The expiry loop deletes exactly the children whose lifespan ran out and that are empty; those that hold objects
      are saved, and no other node changes. */
  lemma ExpiredIs(s: State, p: Path, n: nat)
    requires n <= 8 && s.m.Keys == s.ages.Keys
    ensures var r := ExpiredUpTo(s, p, n);
      && r.m == (map q | q in s.m && !Dropped(s, p, n, q) :: s.m[q])
      && r.ages == (map q | q in s.m && !Dropped(s, p, n, q) ::
                      if RunOut(s, p, n, q) then s.ages[q].(lifespan := -1) else s.ages[q])
  {
    hide ExpiredUpTo;
    var r := ExpiredUpTo(s, p, n);
    ExpiredAt(s, p, n, p);
    forall q: Path ensures q in r.m.Keys <==> q in s.m && !Dropped(s, p, n, q) {
      ExpiredAt(s, p, n, q);
    }
    forall q <- r.m.Keys ensures q in s.m && r.m[q] == s.m[q]
      && r.ages[q] == if RunOut(s, p, n, q) then s.ages[q].(lifespan := -1) else s.ages[q]
    {
      ExpiredAt(s, p, n, q);
    }
    hide RunOut;
  }

  /** So no child is left with its lifespan run out. */
  lemma NoneRunOut(s: State, p: Path, k: Corner)
    requires s.m.Keys == s.ages.Keys && Kid(p, k) in ExpiredUpTo(s, p, 8).ages
    ensures ExpiredUpTo(s, p, 8).ages[Kid(p, k)].lifespan != 0
  {
    ExpiredIs(s, p, 8);
    hide ExpiredUpTo;
  }

  // ----- the tick

  /** The age of a node after the tick: it counts as the rules say, from its lifespan as its parent leaves it. */
  ghost function RestedAge(s: State, q: Path, first: bool): Age
    requires q in s.m && q in s.ages
  {
    var a := s.ages[q];
    NextAge(if !first && a.lifespan == 0 then a.(lifespan := -1) else a, s.m[q] == [], Leaf(s.m, q)).
      (built := true, ready := true, queued := false)
  }

  /** Deleted by its parent. */
  ghost predicate Doomed(s: State, p: Path, q: Path)
  {
    Below(p, q) && q != p && q in s.m && q in s.ages && s.ages[q].lifespan == 0 && s.m[q] == []
  }

  /** The tree after the tick. */
  ghost function Rested(s: State, marked: set<GameObject>, p: Path): State
  {
    State(s.world,
          map q | q in s.m && !Doomed(s, p, q) :: if Below(p, q) then Kept(s.m[q], marked) else s.m[q],
          map q | q in s.m && q in s.ages && !Doomed(s, p, q) ::
            if Below(p, q) then RestedAge(s, q, q == p) else s.ages[q])
  }

  /** What the tick needs of the subtree: it is built, hangs together, and a node whose lifespan ran out has no children
      or holds objects. */
  ghost predicate Calmed(s: State, p: Path)
  {
    forall q <- s.m.Keys | Below(p, q) :: CalmedAt(s, p, q)
  }

  ghost predicate CalmedAt(s: State, p: Path, q: Path)
    requires q in s.m
  {
    && q in s.ages && s.ages[q].built
    && (q != p ==> q.Kid? && q.up in s.m && !Small(Region(s.world, q.up)))
    && (s.ages[q].lifespan == 0 && s.m[q] == [] ==> Leaf(s.m, q))
  }

  lemma CalmedBy(s: State, p: Path)
    requires Sound(s.m, s.ages) && Grown(s.world, s.m.Keys) && AllBuilt(s, p)
    ensures Calmed(s, p)
  {
    hide Region, Small;
    forall q <- s.m.Keys | Below(p, q) ensures CalmedAt(s, p, q) {
      assert SoundAt(s.m, s.ages, q);
    }
  }

  // ----- proof

  ghost predicate SameAt(a: State, b: State, q: Path)
  {
    && (q in a.m <==> q in b.m) && (q in a.ages <==> q in b.ages)
    && (q in a.m && q in b.m ==> a.m[q] == b.m[q])
    && (q in a.ages && q in b.ages ==> a.ages[q] == b.ages[q])
  }

  lemma SameAll(a: State, b: State)
    requires a.world == b.world && forall q: Path :: SameAt(a, b, q)
    ensures a == b
  {
    forall q: Path ensures (q in a.m <==> q in b.m) && (q in a.ages <==> q in b.ages) { assert SameAt(a, b, q); }
    forall q <- a.m.Keys ensures a.m[q] == b.m[q] { assert SameAt(a, b, q); }
    forall q <- a.ages.Keys ensures a.ages[q] == b.ages[q] { assert SameAt(a, b, q); }
    assert a.m == b.m && a.ages == b.ages;
  }

  /** Already deleted when `p` and its first `n` children are updated. */
  ghost predicate GoneBy(s: State, p: Path, n: nat, q: Path)
  {
    Doomed(s, p, q) && (q.up == p || Toward(p, q) < n)
  }

  ghost function ObjectsBy(s: State, marked: set<GameObject>, p: Path, n: nat, q: Path): seq<GameObject>
    requires q in s.m
  {
    if Below(p, q) && (q == p || Toward(p, q) < n) then Kept(s.m[q], marked) else s.m[q]
  }

  ghost function AgeBy(s: State, p: Path, n: nat, q: Path): Age
    requires q in s.m && q in s.ages
  {
    if Below(p, q) && (q == p || Toward(p, q) < n) then RestedAge(s, q, q == p)
    else if RunOut(s, p, 8, q) then s.ages[q].(lifespan := -1)
    else s.ages[q]
  }

  /** The tree when `p` and its first `n` children are updated. */
  ghost function Partly(s: State, marked: set<GameObject>, p: Path, n: nat): State
  {
    State(s.world,
          map q | q in s.m && !GoneBy(s, p, n, q) :: ObjectsBy(s, marked, p, n, q),
          map q | q in s.m && q in s.ages && !GoneBy(s, p, n, q) :: AgeBy(s, p, n, q))
  }

  /** With all children updated that is the tree after the tick. */
  lemma PartlyAll(s: State, marked: set<GameObject>, p: Path)
    ensures Partly(s, marked, p, 8) == Rested(s, marked, p)
  {
    hide Kept, RestedAge, RunOut;
    forall q: Path ensures SameAt(Partly(s, marked, p, 8), Rested(s, marked, p), q) {
      RunOutBelow(s, p, q);
    }
    SameAll(Partly(s, marked, p, 8), Rested(s, marked, p));
  }

  lemma RunOutBelow(s: State, p: Path, q: Path)
    ensures RunOut(s, p, 8, q) ==> Below(p, q) && q != p && Toward(p, q) < 8 && q.up == p
  {
    if RunOut(s, p, 8, q) { KidsApart(p, q.corner, q); }
  }

  /** What lies below a node is reached through its children. */
  lemma {:induction false} CalmedAbove(s: State, p: Path, u: Path, q: Path)
    requires Calmed(s, p) && q in s.m && Below(p, u) && Below(u, q)
    ensures u in s.m
  {
    hide Region, Small;
    BelowTrans(p, u, q);
    assert CalmedAt(s, p, q);
    if q != u {
      if q == p { BelowDeeper(p, u); BelowDeeper(u, p); }
      CalmedAbove(s, p, u, q.up);
    }
  }

  /** Inside the subtree of child `k` nothing has happened before its turn, but its lifespan may have been saved. */
  lemma BeforeTurn(s: State, marked: set<GameObject>, p: Path, k: Corner, q: Path)
    requires s.m.Keys == s.ages.Keys && Below(Kid(p, k), q)
    requires Kid(p, k) in s.m && !Dropped(s, p, 8, Kid(p, k))
    ensures var a := Partly(s, marked, p, k);
      && (q in a.m <==> q in s.m) && a.m.Keys == a.ages.Keys
      && (q in a.m ==> a.m[q] == s.m[q])
      && (q in a.m ==> a.ages[q] == if RunOut(s, p, 8, q) then s.ages[q].(lifespan := -1) else s.ages[q])
      && (RunOut(s, p, 8, q) ==> q == Kid(p, k))
  {
    hide Kept, RestedAge;
    KidsApart(p, k, q);
    if q.Kid? && q.up == p { assert q == Kid(p, k); }
  }

  lemma LeafBefore(s: State, marked: set<GameObject>, p: Path, k: Corner, q: Path)
    requires s.m.Keys == s.ages.Keys && Below(Kid(p, k), q)
    requires Kid(p, k) in s.m && !Dropped(s, p, 8, Kid(p, k))
    ensures Leaf(Partly(s, marked, p, k).m, q) <==> Leaf(s.m, q)
  {
    hide Partly, Dropped;
    forall j: Corner ensures Kid(q, j) in Partly(s, marked, p, k).m <==> Kid(q, j) in s.m {
      BeforeTurn(s, marked, p, k, Kid(q, j));
    }
  }

  lemma TurnAt(s: State, marked: set<GameObject>, p: Path, k: Corner, q: Path)
    requires s.m.Keys == s.ages.Keys && Kid(p, k) in s.m && !Dropped(s, p, 8, Kid(p, k))
    ensures SameAt(Rested(Partly(s, marked, p, k), marked, Kid(p, k)), Partly(s, marked, p, k + 1), q)
  {
    if Below(Kid(p, k), q) {
      OnTurn(s, marked, p, k, q);
    } else {
      OffTurn(s, marked, p, k, q);
      hide Partly;
    }
  }

  lemma OnTurn(s: State, marked: set<GameObject>, p: Path, k: Corner, q: Path)
    requires s.m.Keys == s.ages.Keys && Kid(p, k) in s.m && !Dropped(s, p, 8, Kid(p, k)) && Below(Kid(p, k), q)
    ensures SameAt(Rested(Partly(s, marked, p, k), marked, Kid(p, k)), Partly(s, marked, p, k + 1), q)
  {
    hide Leaf, Kept, NextAge;
    KidsApart(p, k, q);
    BeforeTurn(s, marked, p, k, q);
    LeafBefore(s, marked, p, k, q);
    var a := Partly(s, marked, p, k);
    assert q in s.m ==> q in a.m && a.m[q] == s.m[q];
    AfterTurn(s, marked, p, k, q);
    hide Partly;
  }

  lemma AfterTurn(s: State, marked: set<GameObject>, p: Path, k: Corner, q: Path)
    requires Below(Kid(p, k), q) && Below(p, q) && q != p && Toward(p, q) == k
    ensures var b := Partly(s, marked, p, k + 1);
      && (q in b.m <==> q in s.m && !Doomed(s, p, q)) && (q in b.ages <==> q in b.m && q in s.ages)
      && (q in b.m ==> b.m[q] == Kept(s.m[q], marked))
      && (q in b.ages ==> b.ages[q] == RestedAge(s, q, false))
  {
    hide RestedAge, Kept;
  }

  /** Elsewhere nothing happens in the turn of child `k`. */
  lemma OffTurn(s: State, marked: set<GameObject>, p: Path, k: Corner, q: Path)
    requires !Below(Kid(p, k), q)
    ensures SameAt(Partly(s, marked, p, k), Partly(s, marked, p, k + 1), q)
  {
    hide Kept, RestedAge;
  }

  lemma SkipAt(s: State, marked: set<GameObject>, p: Path, k: Corner, q: Path)
    requires s.m.Keys == s.ages.Keys && Calmed(s, p) && (Kid(p, k) in s.m ==> Dropped(s, p, 8, Kid(p, k)))
    ensures SameAt(Partly(s, marked, p, k), Partly(s, marked, p, k + 1), q)
  {
    var kid := Kid(p, k);
    if Below(kid, q) && q in s.m {
      KidsApart(p, k, q);
      CalmedAbove(s, p, kid, q);
      assert CalmedAt(s, p, kid);
      if q != kid {
        assert Below(Kid(kid, Toward(kid, q)), q);
        BelowTrans(p, kid, Kid(kid, Toward(kid, q)));
        CalmedAbove(s, p, Kid(kid, Toward(kid, q)), q);
      }
      hide Kept, RestedAge, Calmed, CalmedAt;
    } else if !Below(kid, q) {
      OffTurn(s, marked, p, k, q);
    }
  }

  lemma CalmedTurn(s: State, marked: set<GameObject>, p: Path, k: Corner)
    requires s.m.Keys == s.ages.Keys && Calmed(s, p) && Kid(p, k) in s.m && !Dropped(s, p, 8, Kid(p, k))
    ensures Calmed(Partly(s, marked, p, k), Kid(p, k)) && Kid(p, k) in Partly(s, marked, p, k).m
    ensures !Small(Region(s.world, p))
  {
    hide Region, Small, CalmedAt, Partly;
    var a, kid := Partly(s, marked, p, k), Kid(p, k);
    BeforeTurn(s, marked, p, k, kid);
    forall q <- a.m.Keys | Below(kid, q) ensures CalmedAt(a, kid, q) {
      BeforeTurn(s, marked, p, k, q);
      CalmedTurnAt(s, marked, p, k, q);
    }
    KidsApart(p, k, kid);
    CalmedGives(s, p, kid);
    CalmedSmall(s, p, kid);
  }

  lemma CalmedSmall(s: State, p: Path, q: Path)
    requires q in s.m && q.Kid? && CalmedAt(s, p, q) && q != p
    ensures !Small(Region(s.world, q.up))
  {}

  lemma CalmedTurnAt(s: State, marked: set<GameObject>, p: Path, k: Corner, q: Path)
    requires s.m.Keys == s.ages.Keys && Calmed(s, p) && Kid(p, k) in s.m && !Dropped(s, p, 8, Kid(p, k))
    requires q in s.m && Below(Kid(p, k), q) && q in Partly(s, marked, p, k).m
    ensures CalmedAt(Partly(s, marked, p, k), Kid(p, k), q)
  {
    hide Region, Small, Partly, Leaf, Calmed;
    var kid := Kid(p, k);
    BeforeTurn(s, marked, p, k, q);
    LeafBefore(s, marked, p, k, q);
    KidsApart(p, k, q);
    assert CalmedAt(s, p, q) by { CalmedGives(s, p, q); }
    if q != kid { BeforeTurn(s, marked, p, k, q.up); }
    assert Partly(s, marked, p, k).world == s.world by { PartlyWorld(s, marked, p, k); }
  }

  lemma CalmedGives(s: State, p: Path, q: Path)
    requires Calmed(s, p) && q in s.m && Below(p, q)
    ensures CalmedAt(s, p, q)
  {}

  lemma PartlyWorld(s: State, marked: set<GameObject>, p: Path, n: nat)
    ensures Partly(s, marked, p, n).world == s.world
  {}

  lemma MovedNoneKept(objects: seq<GameObject>, v: View)
    requires v.Movers() == {}
    ensures MovedOf(Kept(objects, v.marked), v.dirty) == []
  {
    KeptFree(objects, v.marked);
    var kept := Kept(objects, v.marked);
    assert forall i | 0 <= i < |kept| :: kept[i] !in v.marked && kept[i] !in v.Movers();
    MovedFree(kept, v.dirty);
  }

  lemma {:induction false} KeptFree(objects: seq<GameObject>, marked: set<GameObject>)
    ensures forall i | 0 <= i < |Kept(objects, marked)| :: Kept(objects, marked)[i] !in marked
  {
    if objects != [] {
      KeptFree(objects[1..], marked);
      var rest := Kept(objects[1..], marked);
      assert Kept(objects, marked) == (if objects[0] in marked then [] else [objects[0]]) + rest;
    }
  }

  lemma {:induction false} MovedFree(objects: seq<GameObject>, dirty: set<GameObject>)
    requires forall i | 0 <= i < |objects| :: objects[i] !in dirty
    ensures MovedOf(objects, dirty) == []
  {
    if objects != [] { MovedFree(objects[..|objects| - 1], dirty); }
  }

  /** What happens before the children are updated. */
  lemma PreparedRested(s: State, v: View, p: Path)
    requires p in s.m && s.m.Keys == s.ages.Keys && s.ages[p].built && v.Movers() == {}
    ensures PreparedAs(s, v, p, []) == (Partly(s, v.marked, p, 0), v, [])
  {
    var s1 := SettledAs(s, v.boxes, p, []);
    SettledAlone(s, v.boxes, p);
    var objects := Kept(s.m[p], v.marked);
    MovedNoneKept(s.m[p], v);
    var s3 := Thinned(Aged(s1, p), p, objects);
    hide SettledAs, MovedOf, ExpiredUpTo, Kept;
    assert v.(dirty := v.dirty - Elements([])) == v;
    PartlyStarts(s, s3, v.marked, p);
  }

  lemma PartlyStarts(s: State, s3: State, marked: set<GameObject>, p: Path)
    requires p in s.m && s.m.Keys == s.ages.Keys
    requires s3 == State(s.world, s.m[p := Kept(s.m[p], marked)], s.ages[p := RestedAge(s, p, true)])
    ensures ExpiredUpTo(s3, p, 8) == Partly(s, marked, p, 0)
  {
    forall q: Path ensures SameAt(ExpiredUpTo(s3, p, 8), Partly(s, marked, p, 0), q) {
      ExpiredAt(s3, p, 8, q);
      PartlyFirst(s, s3, marked, p, q, ExpiredUpTo(s3, p, 8));
    }
    hide SameAt, Partly;
    SameAll(ExpiredUpTo(s3, p, 8), Partly(s, marked, p, 0));
  }

  lemma PartlyFirst(s: State, s3: State, marked: set<GameObject>, p: Path, q: Path, r: State)
    requires p in s.m && s.m.Keys == s.ages.Keys && r.m.Keys == r.ages.Keys
    requires s3 == State(s.world, s.m[p := Kept(s.m[p], marked)], s.ages[p := RestedAge(s, p, true)])
    requires q in r.m <==> q in s3.m && !Dropped(s3, p, 8, q)
    requires q in r.m ==> r.m[q] == s3.m[q]
    requires q in r.m ==> r.ages[q] == if RunOut(s3, p, 8, q) then s3.ages[q].(lifespan := -1) else s3.ages[q]
    ensures SameAt(r, Partly(s, marked, p, 0), q)
  {
    hide Kept, RestedAge;
    RunOutBelow(s, p, q);
    RunOutBelow(s3, p, q);
  }

  lemma {:induction false} KidsRested(s: State, v: View, p: Path, n: nat)
    requires n <= 8 && p in s.m && s.m.Keys == s.ages.Keys && Calmed(s, p) && v.Movers() == {}
    ensures var a := Partly(s, v.marked, p, 0);
      UpdatedKids(a, v, p, Kids(a, p), n) == (Partly(s, v.marked, p, n), v)
    decreases Weight(Region(s.world, p)), n
  {
    hide Region, Small, Partly, Updated, Calmed, Dropped;
    if n > 0 {
      var k: Corner, a := n - 1, Partly(s, v.marked, p, 0);
      KidsRested(s, v, p, k);
      KidDue(s, v.marked, p, k);
      KidsNext(a, v, p, Kids(a, p), k, s.world, Partly(s, v.marked, p, k), v);
      hide UpdatedKids, Kids;
      assert a.world == s.world by { PartlyWorld(s, v.marked, p, 0); }
      if k in Kids(a, p) {
        CalmedTurn(s, v.marked, p, k);
        RegionLighter(s.world, p, k);
        TurnRested(s, v, p, k);
      } else {
        SkipRested(s, v.marked, p, k);
      }
    }
  }

  lemma KidDue(s: State, marked: set<GameObject>, p: Path, k: Corner)
    requires s.m.Keys == s.ages.Keys
    ensures k in Kids(Partly(s, marked, p, 0), p) <==> Kid(p, k) in s.m && !Dropped(s, p, 8, Kid(p, k))
  {
    KidsApart(p, k, Kid(p, k));
  }

  lemma {:induction false} TurnRested(s: State, v: View, p: Path, k: Corner)
    requires s.m.Keys == s.ages.Keys && Calmed(s, p) && v.Movers() == {}
    requires Kid(p, k) in s.m && !Dropped(s, p, 8, Kid(p, k))
    requires Weight(Region(s.world, Kid(p, k))) < Weight(Region(s.world, p))
    ensures Updated(Partly(s, v.marked, p, k), v, Kid(p, k), []) == (Partly(s, v.marked, p, k + 1), v)
    decreases Weight(Region(s.world, p)), 0
  {
    hide Region, Partly, Calmed, Dropped, Rested, SameAt, Updated;
    var a := Partly(s, v.marked, p, k);
    CalmedTurn(s, v.marked, p, k);
    PartlyWorld(s, v.marked, p, k);
    PartlyWorld(s, v.marked, p, k + 1);
    assert a.m.Keys == a.ages.Keys by { PartlyKeys(s, v.marked, p, k); }
    RestedIs(a, v, Kid(p, k));
    var b, c := Rested(a, v.marked, Kid(p, k)), Partly(s, v.marked, p, k + 1);
    forall q: Path ensures SameAt(b, c, q) { TurnAt(s, v.marked, p, k, q); }
    RestedWorld(a, v.marked, Kid(p, k));
    SameAll(b, c);
  }

  lemma PartlyKeys(s: State, marked: set<GameObject>, p: Path, n: nat)
    requires s.m.Keys == s.ages.Keys
    ensures Partly(s, marked, p, n).m.Keys == Partly(s, marked, p, n).ages.Keys
  {
    hide Kept, RestedAge, GoneBy, RunOut;
  }

  lemma RestedWorld(s: State, marked: set<GameObject>, p: Path)
    ensures Rested(s, marked, p).world == s.world
  {}

  lemma SkipRested(s: State, marked: set<GameObject>, p: Path, k: Corner)
    requires s.m.Keys == s.ages.Keys && Calmed(s, p) && (Kid(p, k) in s.m ==> Dropped(s, p, 8, Kid(p, k)))
    ensures Partly(s, marked, p, k) == Partly(s, marked, p, k + 1)
  {
    hide Partly, Calmed, Dropped, SameAt;
    var a, b := Partly(s, marked, p, k), Partly(s, marked, p, k + 1);
    forall q: Path ensures SameAt(a, b, q) { SkipAt(s, marked, p, k, q); }
    PartlyWorld(s, marked, p, k);
    PartlyWorld(s, marked, p, k + 1);
    SameAll(a, b);
  }

  /** A tick of a fully built subtree in which nothing is to move erases the marked objects, deletes exactly the empty
      nodes whose lifespan had run out, ages every other node by the rules and changes nothing else. */
  lemma {:induction false} RestedIs(s: State, v: View, p: Path)
    requires p in s.m && s.m.Keys == s.ages.Keys && Calmed(s, p) && v.Movers() == {}
    ensures Updated(s, v, p, []) == (Rested(s, v.marked, p), v)
    decreases Weight(Region(s.world, p)), 9
  {
    hide Region, Partly, PreparedAs, UpdatedKids, Kids, Rested, Updated;
    UpdatedIs(s, v, p, []);
    assert CalmedAt(s, p, p) by { CalmedGives(s, p, p); }
    PreparedRested(s, v, p);
    hide Calmed, CalmedAt;
    KidsRested(s, v, p, 8);
    PartlyAll(s, v.marked, p);
  }

  // ----- many ticks

  /** Ticks of the top in which nothing is to move. */
  ghost predicate QuietRun(ss: seq<State>, vs: seq<View>)
  {
    && |ss| == |vs| + 1
    && forall i | 0 <= i < |vs| :: vs[i].Movers() == {} && ss[i + 1] == Updated(ss[i], vs[i], Top, []).0
  }

  /** Such a tick leaves what it needs. */
  lemma CalmedRested(s: State, marked: set<GameObject>, p: Path)
    requires p in s.m && s.m.Keys == s.ages.Keys && Calmed(s, p)
    ensures Calmed(Rested(s, marked, p), p)
  {
    hide Region, Small;
    var r := Rested(s, marked, p);
    forall q <- r.m.Keys | Below(p, q) ensures CalmedAt(r, p, q) {
      assert CalmedAt(s, p, q);
      CalmedRestedAt(s, marked, p, q);
    }
  }

  lemma CalmedRestedAt(s: State, marked: set<GameObject>, p: Path, q: Path)
    requires p in s.m && s.m.Keys == s.ages.Keys && Calmed(s, p)
    requires q in s.m && Below(p, q) && CalmedAt(s, p, q) && q in Rested(s, marked, p).m
    ensures CalmedAt(Rested(s, marked, p), p, q)
  {
    hide Region, Small, Calmed;
    var r := Rested(s, marked, p);
    assert r.ages[q] == RestedAge(s, q, q == p) && r.m[q] == Kept(s.m[q], marked);
    assert Leaf(s.m, q) ==> Leaf(r.m, q);
    if s.m[q] == [] { assert r.m[q] == []; }
    if q != p {
      assert Kid(q.up, q.corner) in s.m;
      assert CalmedAt(s, p, q.up) by { CalmedGives(s, p, q.up); }
      assert !Doomed(s, p, q.up);
    }
    hide Kept;
  }

  lemma {:induction false} QuietRunIs(ss: seq<State>, vs: seq<View>, i: nat)
    requires QuietRun(ss, vs) && i < |ss|
    requires Top in ss[0].m && ss[0].m.Keys == ss[0].ages.Keys && Calmed(ss[0], Top)
    ensures Top in ss[i].m && ss[i].m.Keys == ss[i].ages.Keys && Calmed(ss[i], Top)
    ensures i > 0 ==> ss[i] == Rested(ss[i - 1], vs[i - 1].marked, Top)
  {
    hide Calmed, Updated, RestedAge, Kept;
    if i > 0 {
      QuietRunIs(ss, vs, i - 1);
      RestedIs(ss[i - 1], vs[i - 1], Top);
      CalmedRested(ss[i - 1], vs[i - 1].marked, Top);
    }
  }

  /** While it is there, an empty leaf counts as `Deserted` says. */
  lemma {:induction false} LeafAges(ss: seq<State>, vs: seq<View>, q: Path, i: nat)
    requires QuietRun(ss, vs) && i < |ss|
    requires Top in ss[0].m && ss[0].m.Keys == ss[0].ages.Keys && Calmed(ss[0], Top)
    requires q.Kid? && q in ss[0].m && ss[0].m[q] == [] && Leaf(ss[0].m, q) && ss[0].ages[q].lifespan == -1
    requires 0 <= ss[0].ages[q].maxLifespan && i <= ss[0].ages[q].maxLifespan + 1
    ensures q in ss[i].m && q in ss[i].ages && ss[i].m[q] == [] && Leaf(ss[i].m, q)
    ensures var age := Deserted(ss[0].ages[q], i);
      ss[i].ages[q].lifespan == age.lifespan && ss[i].ages[q].maxLifespan == age.maxLifespan
  {
    if i > 0 {
      hide QuietRun, Calmed, Leaf, NextAge, Rested;
      LeafAges(ss, vs, q, i - 1);
      QuietRunIs(ss, vs, i);
      QuietRunIs(ss, vs, i - 1);
      var before := DesertedNext(ss[0].ages[q], i);
      LeafAge(ss[i - 1], vs[i - 1].marked, q, before);
    }
  }

  lemma DesertedNext(age: Age, i: nat) returns (before: Age)
    requires age.lifespan == -1 && 0 < i <= age.maxLifespan + 1
    ensures before == Deserted(age, i - 1) && before.lifespan != 0
    ensures Deserted(age, i) == NextAge(before, true, true)
  {
    before := Deserted(age, i - 1);
    DesertedExpires(age);
  }

  lemma LeafAge(s: State, marked: set<GameObject>, q: Path, age: Age)
    requires q.Kid? && q in s.m && s.m.Keys == s.ages.Keys && s.m[q] == [] && Leaf(s.m, q)
    requires s.ages[q].lifespan == age.lifespan != 0 && s.ages[q].maxLifespan == age.maxLifespan
    ensures var r, next := Rested(s, marked, Top), NextAge(age, true, true);
      && q in r.m && q in r.ages && r.m[q] == [] && Leaf(r.m, q)
      && r.ages[q].lifespan == next.lifespan && r.ages[q].maxLifespan == next.maxLifespan
  {
    hide Int8, Leaf, Rested;
    RestedHere(s, marked, q);
  }

  lemma RestedHere(s: State, marked: set<GameObject>, q: Path)
    requires q.Kid? && q in s.m && s.m.Keys == s.ages.Keys && s.m[q] == [] && Leaf(s.m, q) && s.ages[q].lifespan != 0
    ensures var r := Rested(s, marked, Top);
      q in r.m && q in r.ages && r.m[q] == [] && Leaf(r.m, q) && r.ages[q] == RestedAge(s, q, false)
  {
    hide RestedAge;
    BelowTop(q);
  }

  /** An empty leaf survives exactly as many quiet ticks as its maximum says and one more. */
  lemma {:induction false} LeafEnds(ss: seq<State>, vs: seq<View>, q: Path, i: nat)
    requires QuietRun(ss, vs) && i < |ss|
    requires Top in ss[0].m && ss[0].m.Keys == ss[0].ages.Keys && Calmed(ss[0], Top)
    requires q.Kid? && q in ss[0].m && ss[0].m[q] == [] && Leaf(ss[0].m, q) && ss[0].ages[q].lifespan == -1
    requires 0 <= ss[0].ages[q].maxLifespan
    ensures q in ss[i].m <==> i <= ss[0].ages[q].maxLifespan + 1
  {
    hide QuietRun, Calmed, Leaf;
    var last := ss[0].ages[q].maxLifespan + 1;
    if i <= last {
      LeafAges(ss, vs, q, i);
    } else {
      QuietRunIs(ss, vs, i);
      BelowTop(q);
      if i == last + 1 {
        LeafAges(ss, vs, q, last);
        DesertedExpires(ss[0].ages[q]);
      } else {
        LeafEnds(ss, vs, q, i - 1);
      }
    }
  }
}
