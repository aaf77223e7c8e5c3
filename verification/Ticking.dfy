/** What one `Update` tick keeps, in terms of the stored objects and the ages of the nodes. */
module Ticking {
  import opened Geometry
  import opened Options
  import opened Sequences
  import opened GameObjects
  import opened Places
  import opened Totals
  import opened Building
  import opened Probing
  import opened Aging
  import opened Risks
  import opened Settling

  // ----- places

  /** Below the top, every stored object that is neither flat nor exempt lies inside the region of its node. */
  ghost predicate Placed(boxes: Boxes, world: BoundingBox, m: map<Path, seq<GameObject>>, exempt: set<GameObject>)
  {
    forall q <- m.Keys | q != Top :: PlacedAt(boxes, world, q, m[q], exempt)
  }

  ghost predicate PlacedAt(boxes: Boxes, world: BoundingBox, q: Path, objects: seq<GameObject>, exempt: set<GameObject>)
  {
    forall o <- objects :: o !in exempt && !BoxOf(boxes, o).IsPoint() ==> Region(world, q).Contains(BoxOf(boxes, o))
  }

  lemma PlacedBuilt(boxes: Boxes, world: BoundingBox, m: map<Path, seq<GameObject>>, p: Path, exempt: set<GameObject>)
    requires p in m && Placed(boxes, world, m, exempt)
    ensures Placed(boxes, world, Rebuilt(boxes, world, m, p), exempt)
  {
    hide Region, Built, Discarded;
    var n := Rebuilt(boxes, world, m, p);
    forall q <- n.Keys | q != Top ensures PlacedAt(boxes, world, q, n[q], exempt) {
      if q in Built(boxes, world, p, m[p]) {
        if q == p {
          TopKeepsSome(boxes, world, p, m[p]);
          assert PlacedAt(boxes, world, p, m[p], exempt);
        } else {
          BuiltWell(boxes, world, p, m[p], q);
        }
      } else {
        assert PlacedAt(boxes, world, q, m[q], exempt);
      }
    }
  }

  lemma NowhereIn(m: map<Path, seq<GameObject>>, o: GameObject)
    requires o !in Total(m)
    ensures forall q <- m.Keys :: o !in m[q]
  {
    forall q <- m.Keys ensures o !in m[q] {
      if o in m[q] { TotalHas(m, q, o); }
    }
  }

  /** An inserted object is placed; if it is stored nowhere else, it no longer needs to be exempt. */
  lemma PlacedPut(boxes: Boxes, world: BoundingBox, m: map<Path, seq<GameObject>>, h: Path, o: GameObject,
                  exempt: set<GameObject>)
    requires Placed(boxes, world, m, exempt)
    requires h == Top || BoxOf(boxes, o).IsPoint() || Region(world, h).Contains(BoxOf(boxes, o))
    ensures Placed(boxes, world, Put(m, h, o), exempt)
    ensures o !in Total(m) ==> Placed(boxes, world, Put(m, h, o), exempt - {o})
  {
    hide Region, Total;
    var n := Put(m, h, o);
    forall q <- n.Keys | q != Top ensures PlacedAt(boxes, world, q, n[q], exempt) {
      if q in m { assert PlacedAt(boxes, world, q, m[q], exempt); }
    }
    if o !in Total(m) {
      NowhereIn(m, o);
      forall q <- n.Keys | q != Top ensures PlacedAt(boxes, world, q, n[q], exempt - {o}) {
        if q in m { assert PlacedAt(boxes, world, q, m[q], exempt); }
      }
    }
  }

  // ----- growth outside, tidiness inside

  ghost predicate Spotless(objects: seq<GameObject>, soiled: set<GameObject>)
  {
    forall o <- objects :: o !in soiled
  }

  /** Outside the subtree at `p` objects are only appended, and none that is soiled. */
  ghost predicate Grew(m: map<Path, seq<GameObject>>, m': map<Path, seq<GameObject>>, p: Path, soiled: set<GameObject>)
  {
    && (forall q <- m.Keys | !Below(p, q) :: q in m' && m[q] <= m'[q] && Spotless(m'[q][|m[q]|..], soiled))
    && (forall q <- m'.Keys | !Below(p, q) && q !in m :: Spotless(m'[q], soiled))
  }

  /** No soiled object is stored at or below `p`. */
  ghost predicate Tidy(m: map<Path, seq<GameObject>>, p: Path, soiled: set<GameObject>)
  {
    forall q <- m.Keys | Below(p, q) :: Spotless(m[q], soiled)
  }

  lemma SpotlessSplit(a: seq<GameObject>, b: seq<GameObject>, c: seq<GameObject>, soiled: set<GameObject>)
    requires a <= b <= c && Spotless(b[|a|..], soiled) && Spotless(c[|b|..], soiled)
    ensures Spotless(c[|a|..], soiled)
  {
    assert c[|a|..] == b[|a|..] + c[|b|..];
  }

  lemma GrewTrans(a: map<Path, seq<GameObject>>, b: map<Path, seq<GameObject>>, c: map<Path, seq<GameObject>>,
                  p: Path, s: set<GameObject>, s': set<GameObject>)
    requires Grew(a, b, p, s) && Grew(b, c, p, s') && s' <= s
    ensures Grew(a, c, p, s')
  {
    forall q <- a.Keys | !Below(p, q) ensures q in c && a[q] <= c[q] && Spotless(c[q][|a[q]|..], s') {
      SpotlessSplit(a[q], b[q], c[q], s');
    }
    forall q <- c.Keys | !Below(p, q) && q !in a ensures Spotless(c[q], s') {
      if q in b {
        assert c[q] == b[q] + c[q][|b[q]|..];
      }
    }
  }

  lemma GrewUp(a: map<Path, seq<GameObject>>, b: map<Path, seq<GameObject>>, p: Path, kid: Path,
               soiled: set<GameObject>)
    requires Below(p, kid) && Grew(a, b, kid, soiled)
    ensures Grew(a, b, p, soiled)
  {
    forall q | !Below(p, q) ensures !Below(kid, q) {
      if Below(kid, q) { BelowTrans(p, kid, q); }
    }
  }

  /** Of the children marked in `mask`, those from `n` on are still to be updated; everything else is tidy. */
  ghost predicate Visited(m: map<Path, seq<GameObject>>, p: Path, due: set<Corner>, n: nat, soiled: set<GameObject>)
  {
    forall q <- m.Keys | Below(p, q) && q != p && !(Toward(p, q) in due && Toward(p, q) >= n) :: Spotless(m[q], soiled)
  }

  lemma VisitStep(m: map<Path, seq<GameObject>>, m': map<Path, seq<GameObject>>, p: Path, due: set<Corner>, k: Corner,
                  s: set<GameObject>, s': set<GameObject>)
    requires Visited(m, p, due, k, s) && s' <= s
    requires Grew(m, m', Kid(p, k), s') && Tidy(m', Kid(p, k), s')
    ensures Visited(m', p, due, k + 1, s')
  {
    forall q <- m'.Keys | Below(p, q) && q != p && !(Toward(p, q) in due && Toward(p, q) >= k + 1)
      ensures Spotless(m'[q], s')
    {
      if !Below(Kid(p, k), q) {
        if q in m {
          assert Toward(p, q) != k;
          assert m'[q] == m[q] + m'[q][|m[q]|..];
        }
      }
    }
  }

  lemma VisitSkip(m: map<Path, seq<GameObject>>, p: Path, due: set<Corner>, k: Corner, soiled: set<GameObject>)
    requires Visited(m, p, due, k, soiled) && k !in due
    ensures Visited(m, p, due, k + 1, soiled)
  {}

  /** With no child left to update the whole subtree is tidy. */
  lemma VisitEnd(m: map<Path, seq<GameObject>>, p: Path, due: set<Corner>, n: nat, soiled: set<GameObject>)
    requires Visited(m, p, due, n, soiled) && (forall k <- due :: k < n)
    requires p in m ==> Spotless(m[p], soiled)
    ensures Tidy(m, p, soiled)
  {}

  // ----- quiet ticks

  /** Updating `q` puts at risk nothing outside its subtree and nothing stored: a node that is still to be built has
      no child at a corner it will fill, and no object that moved has left the region of the node. */
  ghost predicate QuietAt(boxes: Boxes, world: BoundingBox, m: map<Path, seq<GameObject>>, ages: map<Path, Age>,
                          q: Path, movers: set<GameObject>)
    requires q in m && q in ages
  {
    && (!ages[q].built ==> forall k: Corner :: Fills(boxes, Region(world, q), m[q], k) ==> Kid(q, k) !in m)
    && forall o <- m[q] | o in movers :: Region(world, q).Contains(BoxOf(boxes, o))
  }

  ghost predicate Quiet(boxes: Boxes, world: BoundingBox, m: map<Path, seq<GameObject>>, ages: map<Path, Age>, p: Path,
                        movers: set<GameObject>)
  {
    forall q <- m.Keys | Below(p, q) && q in ages :: QuietAt(boxes, world, m, ages, q, movers)
  }

  /** Quiet children stay quiet while another child is updated quietly. */
  lemma QuietElsewhere(boxes: Boxes, world: BoundingBox, m: map<Path, seq<GameObject>>, ages: map<Path, Age>,
                       movers: set<GameObject>, m': map<Path, seq<GameObject>>, ages': map<Path, Age>,
                       movers': set<GameObject>, p: Path, k: Corner, j: Corner)
    requires j != k && Quiet(boxes, world, m, ages, Kid(p, j), movers) && movers' <= movers
    requires Outside(m', Kid(p, k)) == Outside(m, Kid(p, k)) && m.Keys == ages.Keys && m'.Keys == ages'.Keys
    requires AgesOutside(ages, ages', Kid(p, k))
    ensures Quiet(boxes, world, m', ages', Kid(p, j), movers')
  {
    hide Region, Fills;
    OutsideKeys(m, Kid(p, k));
    OutsideKeys(m', Kid(p, k));
    forall q <- m'.Keys | Below(Kid(p, j), q) ensures QuietAt(boxes, world, m', ages', q, movers') {
      OtherKid(p, k, j, q);
      assert q in Outside(m', Kid(p, k));
      assert QuietAt(boxes, world, m, ages, q, movers);
      forall i: Corner ensures Kid(q, i) in m' ==> Kid(q, i) in m {
        OtherKid(p, k, j, Kid(q, i));
        if Kid(q, i) in m' { assert Kid(q, i) in Outside(m', Kid(p, k)); }
      }
    }
  }

  lemma OtherKid(p: Path, k: Corner, j: Corner, q: Path)
    requires j != k && Below(Kid(p, j), q)
    ensures !Below(Kid(p, k), q)
  {
    KidsApart(p, j, q);
    if Below(Kid(p, k), q) { KidsApart(p, k, q); }
  }

  /** Building a quiet node throws nothing away. */
  lemma QuietBuilds(boxes: Boxes, world: BoundingBox, m: map<Path, seq<GameObject>>, ages: map<Path, Age>, p: Path,
                    movers: set<GameObject>)
    requires Grown(world, m.Keys) && p in m && p in ages && QuietAt(boxes, world, m, ages, p, movers) && !ages[p].built
    ensures Overwritten(boxes, world, m, p) == map[]
  {
    hide Region, Fills, Small;
    forall q <- m.Keys ensures !Discarded(boxes, world, p, m[p], q) {
      if Discarded(boxes, world, p, m[p], q) { GrownAbove(world, m.Keys, p, q); }
    }
  }

  /** Built for the first time, a quiet subtree stays quiet. */
  lemma QuietBuilt(boxes: Boxes, world: BoundingBox, m: map<Path, seq<GameObject>>, ages: map<Path, Age>, p: Path,
                   movers: set<GameObject>, ages': map<Path, Age>)
    requires Grown(world, m.Keys) && p in m && Sound(m, ages) && !ages[p].built
    requires Quiet(boxes, world, m, ages, p, movers)
    requires BuiltAges(ages, ages', p) && ages'.Keys == Rebuilt(boxes, world, m, p).Keys
    ensures Quiet(boxes, world, Rebuilt(boxes, world, m, p), ages', p, movers)
  {
    hide Region, Fills, Small, Built, Discarded;
    var m' := Rebuilt(boxes, world, m, p);
    RebuiltApart(boxes, world, m, p);
    forall q <- m'.Keys | Below(p, q) ensures QuietAt(boxes, world, m', ages', q, movers) {
      if q == p {
        assert QuietAt(boxes, world, m, ages, p, movers);
        TopKeepsSome(boxes, world, p, m[p]);
      } else if q in Built(boxes, world, p, m[p]) {
        BuiltWell(boxes, world, p, m[p], q);
      } else {
        assert QuietAt(boxes, world, m, ages, q, movers);
        UnbuiltBelow(m, ages, p, q);
        forall k: Corner ensures Kid(q, k) in m' ==> Kid(q, k) in m {
          if Kid(q, k) in Built(boxes, world, p, m[p]) && Kid(q, k) != p {
            BuiltGrown(boxes, world, p, m[p], Kid(q, k));
          }
        }
      }
    }
  }

  // ----- one insertion

  lemma PutTotal(m: map<Path, seq<GameObject>>, h: Path, o: GameObject)
    ensures Total(Put(m, h, o)) == Total(m) + multiset{o}
  {
    var before := if h in m then m[h] else [];
    TotalSet(m, h, before + [o]);
    assert multiset(before + [o]) == multiset(before) + multiset{o};
    if h !in m { assert multiset(before) == multiset{}; }
  }

  /** An insertion at the top node leaves everything placed. */
  lemma TopInsertionPlaced(boxes: Boxes, world: BoundingBox, m: map<Path, seq<GameObject>>, o: GameObject,
                           exempt: set<GameObject>, m': map<Path, seq<GameObject>>)
    requires Grown(world, m.Keys) && Top in m && Placed(boxes, world, m, exempt)
    requires var home := Home(world, m, Top, BoxOf(boxes, o)); m' == if home.Some? then Put(m, home.value, o) else m
    ensures Placed(boxes, world, m', exempt)
  {
    hide Placed, Region, Put, Home, Grown;
    if Home(world, m, Top, BoxOf(boxes, o)).Some? {
      HomeContains(world, m, Top, BoxOf(boxes, o));
      TopContains(world, m, BoxOf(boxes, o));
      PlacedPut(boxes, world, m, Home(world, m, Top, BoxOf(boxes, o)).value, o, exempt);
    }
  }

  lemma TopContains(world: BoundingBox, m: map<Path, seq<GameObject>>, box: BoundingBox)
    requires Home(world, m, Top, box).Some?
    ensures var h := Home(world, m, Top, box).value; h == Top || !(Vacant(m, Top) || Small(Region(world, Top)))
  {}

  /** Moving one object from the books of the queue to those of the tree or the rejects. */
  lemma Accrue<T>(t': multiset<T>, r: multiset<T>, t: multiset<T>, rejected: multiset<T>, base: multiset<T>,
                  done: multiset<T>, o: multiset<T>)
    requires t' + r == t + o && t + rejected == base + done
    ensures t' + (rejected + r) == base + (done + o)
  {
    calc {
      t' + (rejected + r);
      (t' + r) + rejected;
      (t + o) + rejected;
      (t + rejected) + o;
      base + (done + o);
    }
  }

  /** What an insertion keeps. */
  lemma InsertionKeeps(world: BoundingBox, m: map<Path, seq<GameObject>>, ages: map<Path, Age>, p: Path, o: GameObject,
                       box: BoundingBox, m': map<Path, seq<GameObject>>, ages': map<Path, Age>)
    requires world.Proper() && Grown(world, m.Keys) && p in m && Sound(m, ages)
    requires var home := Home(world, m, p, box); m' == if home.Some? then Put(m, home.value, o) else m
    requires ages'.Keys == m'.Keys
    requires forall q <- m'.Keys :: ages'[q] == if q in m then ages[q] else NEW_AGE
    ensures Sound(m', ages')
    ensures Home(world, m, p, box).Some? ==> Total(m') == Total(m) + multiset{o}
    ensures Home(world, m, p, box).None? ==> m' == m && !world.Contains(box)
  {
    hide Region, Small, Vacant, Home, Grown, SoundAt, Total;
    if Home(world, m, p, box).Some? {
      var h := Home(world, m, p, box).value;
      HomeShape(world, m, p, box);
      PutTotal(m, h, o);
      PuttingSound(world, m, ages, m', ages', h, o);
    } else {
      HomeRejects(world, m, p, box);
      assert ages' == ages;
    }
  }

  /** The objects in `done` were inserted at the top or rejected there, and nothing else happened. */
  ghost predicate Absorbed(boxes: Boxes, world: BoundingBox, m: map<Path, seq<GameObject>>,
                           m': map<Path, seq<GameObject>>, done: seq<GameObject>, rejected: multiset<GameObject>,
                           exempt: set<GameObject>)
  {
    && Placed(boxes, world, m', exempt)
    && Total(m') + rejected == Total(m) + multiset(done)
    && (forall o <- rejected :: !world.Contains(BoxOf(boxes, o)))
    && Extends(m, m')
    && m' == QueueIn(boxes, world, m, done) && rejected == QueueOut(boxes, world, m, done)
    && (done == [] ==> m' == m && rejected == multiset{})
  }

  lemma AbsorbedNone(boxes: Boxes, world: BoundingBox, m: map<Path, seq<GameObject>>, exempt: set<GameObject>)
    requires Placed(boxes, world, m, exempt)
    ensures Absorbed(boxes, world, m, m, [], multiset{}, exempt)
  {
    hide Placed, Total;
  }

  lemma AbsorbedMore(boxes: Boxes, world: BoundingBox, m: map<Path, seq<GameObject>>, m1: map<Path, seq<GameObject>>,
                     m2: map<Path, seq<GameObject>>, done: seq<GameObject>, rejected: multiset<GameObject>,
                     exempt: set<GameObject>, o: GameObject, r: multiset<GameObject>)
    requires Absorbed(boxes, world, m, m1, done, rejected, exempt)
    requires Placed(boxes, world, m2, exempt) && Total(m2) + r == Total(m1) + multiset{o} && Extends(m1, m2)
    requires forall x <- r :: !world.Contains(BoxOf(boxes, x))
    requires var home := Home(world, m1, Top, BoxOf(boxes, o));
      m2 == (if home.Some? then Put(m1, home.value, o) else m1) && r == if home.Some? then multiset{} else multiset{o}
    ensures Absorbed(boxes, world, m, m2, done + [o], rejected + r, exempt)
  {
    hide Placed, Total, BoxOf, Extends, QueueIn, QueueOut, Home, Put;
    QueueMore(boxes, world, m, done, o);
    ExtendsTrans(m, m1, m2);
    assert multiset(done + [o]) == multiset(done) + multiset{o};
    Accrue(Total(m2), r, Total(m1), rejected, Total(m), multiset(done), multiset{o});
  }

  // ----- the first update of a node

  lemma RebuiltOutside(boxes: Boxes, world: BoundingBox, m: map<Path, seq<GameObject>>, p: Path)
    requires p in m
    ensures Outside(Rebuilt(boxes, world, m, p), p) == Outside(m, p)
  {
    hide Region, Built, Fills;
    RebuiltApart(boxes, world, m, p);
    forall q <- Rebuilt(boxes, world, m, p).Keys | !Below(p, q) ensures q in m
      && Rebuilt(boxes, world, m, p)[q] == m[q] {}
  }

  lemma Cancel<T>(a: multiset<T>, b: multiset<T>, c: multiset<T>, d: multiset<T>)
    requires a + b == c + (b + d)
    ensures a == c + d
  {
    assert (a + b) - b == a;
    assert c + (b + d) - b == c + d;
  }

  /** The queued objects join the node before it is built. */
  ghost function Joined(m: map<Path, seq<GameObject>>, p: Path, queue: seq<GameObject>): map<Path, seq<GameObject>>
    requires p in m
  {
    m[p := m[p] + queue]
  }

  lemma JoinedKeeps(boxes: Boxes, world: BoundingBox, m: map<Path, seq<GameObject>>, ages: map<Path, Age>, p: Path,
                    queue: seq<GameObject>, exempt: set<GameObject>)
    requires p in m && Sound(m, ages) && !ages[p].built && (queue == [] || p == Top)
    requires Placed(boxes, world, m, exempt)
    ensures var j := Joined(m, p, queue);
      && j.Keys == m.Keys && Sound(j, ages) && Placed(boxes, world, j, exempt) && Outside(j, p) == Outside(m, p)
      && Total(j) == Total(m) + multiset(queue)
      && (queue == [] ==> j == m)
  {
    assert SoundAt(m, ages, p);
    hide Region, Total, SoundAt;
    LosingSound(m, ages, p, m[p] + queue);
    TotalSet(m, p, m[p] + queue);
    assert multiset(m[p] + queue) == multiset(m[p]) + multiset(queue);
    Cancel(Total(m[p := m[p] + queue]), multiset(m[p]), Total(m), multiset(queue));
    JoinedPlaced(boxes, world, m, p, queue, exempt);
    hide Sound, Placed;
    JoinedSame(m, p, queue);
  }

  lemma JoinedSame(m: map<Path, seq<GameObject>>, p: Path, queue: seq<GameObject>)
    requires p in m
    ensures Joined(m, p, queue).Keys == m.Keys && Outside(Joined(m, p, queue), p) == Outside(m, p)
    ensures queue == [] ==> Joined(m, p, queue) == m
  {
    assert Below(p, p);
    assert queue == [] ==> m[p] + queue == m[p];
  }

  lemma JoinedPlaced(boxes: Boxes, world: BoundingBox, m: map<Path, seq<GameObject>>, p: Path, queue: seq<GameObject>,
                     exempt: set<GameObject>)
    requires p in m && (queue == [] || p == Top) && Placed(boxes, world, m, exempt)
    ensures Placed(boxes, world, Joined(m, p, queue), exempt)
  {
    hide Region;
    var j := Joined(m, p, queue);
    assert queue == [] ==> m[p] + queue == m[p];
    forall q <- j.Keys | q != Top ensures PlacedAt(boxes, world, q, j[q], exempt) {
      assert PlacedAt(boxes, world, q, m[q], exempt);
    }
  }

  /** What the first update of a node keeps: the stored objects and the queue are shared out between the tree and
      what was overwritten, and in a quiet subtree nothing is. */
  lemma FirstBuildKeeps(boxes: Boxes, world: BoundingBox, m: map<Path, seq<GameObject>>, ages: map<Path, Age>, p: Path,
                        queue: seq<GameObject>, exempt: set<GameObject>, movers: set<GameObject>, ages': map<Path, Age>)
    requires p in m && p in ages && Grown(world, m.Keys) && Sound(m, ages) && !ages[p].built
      && (queue == [] || p == Top)
    requires p.Kid? ==> p.up in ages && ages[p.up].built
    requires Placed(boxes, world, m, exempt)
    requires var m' := Rebuilt(boxes, world, Joined(m, p, queue), p);
      ages'.Keys == m'.Keys && BuiltAges(ages, ages', p)
    ensures var m' := Rebuilt(boxes, world, Joined(m, p, queue), p);
      && Sound(m', ages') && Placed(boxes, world, m', exempt) && Outside(m', p) == Outside(m, p)
      && Total(m') + Total(Overwritten(boxes, world, Joined(m, p, queue), p)) == Total(m) + multiset(queue)
      && (queue == [] && Quiet(boxes, world, m, ages, p, movers) ==>
            Total(Overwritten(boxes, world, Joined(m, p, queue), p)) == multiset{}
              && Quiet(boxes, world, m', ages', p, movers))
  {
    hide Region, Total, Placed, Quiet, Rebuilt, Sound, Overwritten, Outside, Joined;
    var j := Joined(m, p, queue);
    JoinedKeeps(boxes, world, m, ages, p, queue, exempt);
    RebuiltAccounts(boxes, world, j, p);
    RebuiltOutside(boxes, world, j, p);
    RebuiltGrown(boxes, world, j, p);
    PlacedBuilt(boxes, world, j, p, exempt);
    BuildingSound(j, ages, p, Rebuilt(boxes, world, j, p), ages');
    if queue == [] && Quiet(boxes, world, m, ages, p, movers) {
      assert p in ages;
      QuietOne(boxes, world, m, ages, p, movers);
      QuietBuilds(boxes, world, m, ages, p, movers);
      TotalEmpty(Overwritten(boxes, world, m, p));
      QuietBuilt(boxes, world, m, ages, p, movers, ages');
    }
  }

  lemma QuietOne(boxes: Boxes, world: BoundingBox, m: map<Path, seq<GameObject>>, ages: map<Path, Age>, p: Path,
                 movers: set<GameObject>)
    requires Quiet(boxes, world, m, ages, p, movers) && p in m && p in ages
    ensures QuietAt(boxes, world, m, ages, p, movers)
  {}

  // ----- states of a tree during an update

  /** A reachable state: the ages are sound, the objects known, and all but `exempt` are placed. */
  ghost predicate Fine(s: State, boxes: Boxes, exempt: set<GameObject>)
  {
    && s.world.Proper() && Grown(s.world, s.m.Keys)
    && Sound(s.m, s.ages)
    && (forall o <- Total(s.m) :: o in boxes)
    && Placed(boxes, s.world, s.m, exempt)
  }

  ghost predicate Calm(s: State, boxes: Boxes, p: Path, movers: set<GameObject>)
  {
    Quiet(boxes, s.world, s.m, s.ages, p, movers)
  }

  /** In the nodes that are built, every object that is not excused stays where it is. */
  ghost predicate Stays(s: State, s': State, excused: set<GameObject>)
  {
    forall q <- s.m.Keys | q in s.ages && s.ages[q].built :: StaysAt(s, s', excused, q)
  }

  ghost predicate StaysAt(s: State, s': State, excused: set<GameObject>, q: Path)
    requires q in s.m
  {
    forall o <- s.m[q] | o !in excused :: q in s'.m && q in s'.ages && s'.ages[q].built && o in s'.m[q]
  }

  lemma StaysSelf(s: State)
    ensures Stays(s, s, {})
  {}

  lemma StaysTrans(s: State, s1: State, s2: State, e1: set<GameObject>, e2: set<GameObject>, e: set<GameObject>)
    requires Stays(s, s1, e1) && Stays(s1, s2, e2) && e1 <= e && e2 <= e
    ensures Stays(s, s2, e)
  {
    forall q <- s.m.Keys | q in s.ages && s.ages[q].built ensures StaysAt(s, s2, e, q) {
      assert StaysAt(s, s1, e1, q);
      if q in s1.m && q in s1.ages && s1.ages[q].built {
        assert StaysAt(s1, s2, e2, q);
      }
    }
  }

  /** Nothing is taken out of any node. */
  ghost predicate Extends(m: map<Path, seq<GameObject>>, m': map<Path, seq<GameObject>>)
  {
    forall q <- m.Keys :: q in m' && m[q] <= m'[q]
  }

  lemma ExtendsTrans(m: map<Path, seq<GameObject>>, m1: map<Path, seq<GameObject>>, m2: map<Path, seq<GameObject>>)
    requires Extends(m, m1) && Extends(m1, m2)
    ensures Extends(m, m2)
  {}

  lemma PutExtends(m: map<Path, seq<GameObject>>, home: Option<Path>, o: GameObject)
    ensures Extends(m, if home.Some? then Put(m, home.value, o) else m)
  {}

  ghost predicate Rejected(s: State, boxes: Boxes, rejected: multiset<GameObject>)
  {
    forall o <- rejected :: !s.world.Contains(BoxOf(boxes, o))
  }

  /** Taking the queue in at `p`. */
  ghost predicate Settles(s: State, s': State, p: Path, boxes: Boxes, exempt: set<GameObject>, movers: set<GameObject>,
                          queue: seq<GameObject>, rejected: multiset<GameObject>, overwritten: multiset<GameObject>)
    requires p in s.ages
  {
    && Fine(s', boxes, exempt) && s'.world == s.world
    && p in s'.ages && s'.ages[p] == s.ages[p].(built := true, ready := true, queued := false)
    && p in s.m && s' == SettledAs(s, boxes, p, queue)
    && rejected == (if s.ages[p].built then QueueOut(boxes, s.world, s.m, queue) else multiset{})
    && AgesOutside(s.ages, s'.ages, p) && Outside(s'.m, p) == Outside(s.m, p)
    && Total(s'.m) + (rejected + overwritten) == Total(s.m) + multiset(queue)
    && Rejected(s, boxes, rejected) && Stays(s, s', {})
    && (queue == [] && Calm(s, boxes, p, movers) ==>
          rejected == overwritten == multiset{} && Calm(s', boxes, p, movers))
    && (queue == [] ==> rejected == multiset{})
    && Within(s, boxes, p, movers, queue, Risk(s', boxes, p, movers)) && Tame(s, boxes, p, movers, queue, overwritten)
  }

  /** A node that is ready has nothing to take in. */
  lemma SettlesNothing(s: State, p: Path, boxes: Boxes, exempt: set<GameObject>, movers: set<GameObject>)
    requires Fine(s, boxes, exempt) && p in s.m && s.m.Keys == s.ages.Keys
    requires s.ages[p].built && s.ages[p].ready && !s.ages[p].queued
    ensures Settles(s, s, p, boxes, exempt, movers, [], multiset{}, multiset{})
  {
    hide Fine, Calm, Risk, Home, Put, Rebuilt, Sound, Region;
    assert s.ages[p := s.ages[p]] == s.ages && s.(ages := s.ages) == s;
    SettledAlone(s, boxes, p);
    assert QueueOut(boxes, s.world, s.m, []) == multiset{};
    hide SettledAs, QueueOut, QueueIn, Total, Outside, Elements;
    StaysSelf(s);
    assert Total(s.m) + multiset([]) == Total(s.m);
  }

  lemma FineNode(s: State, boxes: Boxes, exempt: set<GameObject>, p: Path)
    requires Fine(s, boxes, exempt) && p in s.m
    ensures p in s.ages && s.m.Keys == s.ages.Keys && SoundAt(s.m, s.ages, p)
    ensures forall o <- s.m[p] :: o in boxes
  {
    hide Placed, SoundAt, Total, Grown;
    forall o <- s.m[p] ensures o in boxes { TotalHas(s.m, p, o); }
  }

  lemma BuiltOutside(m: map<Path, seq<GameObject>>, ages: map<Path, Age>, m': map<Path, seq<GameObject>>,
                     ages': map<Path, Age>, p: Path)
    requires p in ages && BuiltAges(ages, ages', p)
    requires m.Keys == ages.Keys && m'.Keys == ages'.Keys && Outside(m', p) == Outside(m, p)
    ensures AgesOutside(ages, ages', p)
  {
    OutsideKeys(m, p);
    OutsideKeys(m', p);
    forall q <- ages.Keys | !Below(p, q) ensures q in ages' { assert q in Outside(m, p); }
  }

  lemma SettlesUnbuilt(s: State, s': State, p: Path, boxes: Boxes, exempt: set<GameObject>, movers: set<GameObject>,
                       queue: seq<GameObject>)
    requires Fine(s, boxes, exempt) && p in s.m && p in s.ages && !s.ages[p].built && (queue == [] || p == Top)
    requires p.Kid? ==> p.up in s.ages && s.ages[p.up].built
    requires forall o <- queue :: o in boxes
    requires s'.world == s.world && s'.m == Rebuilt(boxes, s.world, Joined(s.m, p, queue), p)
    requires s'.ages.Keys == s'.m.Keys && BuiltAges(s.ages, s'.ages, p)
    ensures Settles(s, s', p, boxes, exempt, movers, queue, multiset{},
                    Total(Overwritten(boxes, s.world, Joined(s.m, p, queue), p)))
  {
    hide Fine, Rebuilt, Total, Calm, Overwritten, Outside, AgesOutside, Stays, Risk, Tame, Within;
    FineParts(s, boxes, exempt);
    BuiltAgesFor(s.m, s.ages, s'.ages, p);
    hide Joined, BuiltAges, AgesFor;
    FirstBuildFine(s, s', p, boxes, exempt, movers, queue);
    FirstBuildRisk(s, s', p, boxes, exempt, movers, queue);
    JoinedHas(s.m, p, queue);
    var lost := Total(Overwritten(boxes, s.world, Joined(s.m, p, queue), p));
    assert multiset{} + lost == lost;
  }

  lemma FirstBuildFine(s: State, s': State, p: Path, boxes: Boxes, exempt: set<GameObject>, movers: set<GameObject>,
                       queue: seq<GameObject>)
    requires Fine(s, boxes, exempt) && p in s.m && p in s.ages && !s.ages[p].built && (queue == [] || p == Top)
    requires p.Kid? ==> p.up in s.ages && s.ages[p.up].built
    requires forall o <- queue :: o in boxes
    requires s'.world == s.world && s'.m == Rebuilt(boxes, s.world, Joined(s.m, p, queue), p)
    requires s'.ages.Keys == s'.m.Keys && BuiltAges(s.ages, s'.ages, p)
    ensures var lost := Total(Overwritten(boxes, s.world, Joined(s.m, p, queue), p));
      && Fine(s', boxes, exempt) && p in s'.ages && AgesOutside(s.ages, s'.ages, p)
      && Outside(s'.m, p) == Outside(s.m, p) && Total(s'.m) + lost == Total(s.m) + multiset(queue)
      && Stays(s, s', {})
      && (queue == [] && Calm(s, boxes, p, movers) ==> lost == multiset{} && Calm(s', boxes, p, movers))
  {
    hide Placed, Rebuilt, Total, Quiet, Overwritten, SoundAt, Joined, Outside, Grown;
    var j := Joined(s.m, p, queue);
    FirstBuildKeeps(boxes, s.world, s.m, s.ages, p, queue, exempt, movers, s'.ages);
    JoinedKeeps(boxes, s.world, s.m, s.ages, p, queue, exempt);
    RebuiltGrown(boxes, s.world, j, p);
    BuiltOutside(s.m, s.ages, s'.m, s'.ages, p);
    StaysBuilding(s, s', p);
    hide BuiltAges, Sound, AgesOutside, Stays;
    KnownPart(Total(s'.m), Total(Overwritten(boxes, s.world, j, p)), Total(s.m), multiset(queue), boxes);
  }

  lemma FirstBuildRisk(s: State, s': State, p: Path, boxes: Boxes, exempt: set<GameObject>, movers: set<GameObject>,
                       queue: seq<GameObject>)
    requires Fine(s, boxes, exempt) && p in s.m && p in s.ages && !s.ages[p].built && (queue == [] || p == Top)
    requires s'.world == s.world && s'.m == Rebuilt(boxes, s.world, Joined(s.m, p, queue), p)
    ensures Within(s, boxes, p, movers, queue, Risk(s', boxes, p, movers))
    ensures Tame(s, boxes, p, movers, queue, Total(Overwritten(boxes, s.world, Joined(s.m, p, queue), p)))
  {
    hide Placed, Rebuilt, Total, Overwritten, SoundAt, Outside, Grown, Risk, Tame;
    var j := s.(m := Joined(s.m, p, queue));
    JoinedKeeps(boxes, s.world, s.m, s.ages, p, queue, exempt);
    JoinedRisk(s, boxes, p, movers, queue);
    RebuiltRisk(j, s', boxes, p, movers);
    RebuiltTame(j, boxes, p, movers);
    TameLess(s, p, movers, queue, j, p, movers, boxes, Total(Overwritten(boxes, s.world, j.m, p)));
  }

  /** Building a node for the first time touches no built node. */
  lemma StaysBuilding(s: State, s': State, p: Path)
    requires Sound(s.m, s.ages) && p in s.m && !s.ages[p].built
    requires AgesOutside(s.ages, s'.ages, p) && Outside(s'.m, p) == Outside(s.m, p)
    ensures Stays(s, s', {})
  {
    forall q <- s.m.Keys | q in s.ages && s.ages[q].built ensures StaysAt(s, s', {}, q) {
      if Below(p, q) { UnbuiltBelow(s.m, s.ages, p, q); }
      assert q in Outside(s.m, p);
      assert q in Outside(s'.m, p);
    }
  }

  lemma KnownPart(a: multiset<GameObject>, b: multiset<GameObject>, c: multiset<GameObject>, d: multiset<GameObject>,
                  boxes: Boxes)
    requires a + b == c + d
    requires (forall o <- c :: o in boxes) && (forall o <- d :: o in boxes)
    ensures forall o <- a :: o in boxes
  {
    forall o <- a ensures o in boxes {
      assert (a + b)[o] > 0;
      assert o in c + d;
    }
  }

  /** A built node that takes its queue in one by one. */
  lemma SettlesBuilt(s: State, s': State, p: Path, boxes: Boxes, exempt: set<GameObject>, movers: set<GameObject>,
                     queue: seq<GameObject>, rejected: multiset<GameObject>)
    requires Fine(s, boxes, exempt) && p in s.m && p in s.ages && s.ages[p].built && (queue == [] || p == Top)
    requires forall o <- queue :: o in boxes
    requires s'.world == s.world && Grown(s.world, s'.m.Keys) && s.m.Keys <= s'.m.Keys == s'.ages.Keys
    requires Sound(s'.m, s'.ages) && Placed(boxes, s.world, s'.m, exempt)
    requires s'.ages[p] == s.ages[p].(ready := true, queued := false)
    requires forall q <- s.m.Keys | q != p :: s'.ages[q] == s.ages[q]
    requires Total(s'.m) + rejected == Total(s.m) + multiset(queue) && Rejected(s, boxes, rejected)
    requires queue == [] ==> s'.m == s.m && rejected == multiset{}
    requires Extends(s.m, s'.m)
    requires s' == SettledAs(s, boxes, p, queue) && rejected == QueueOut(boxes, s.world, s.m, queue)
    ensures Settles(s, s', p, boxes, exempt, movers, queue, rejected, multiset{})
  {
    hide Placed, Total, SoundAt, Grown, Sound, Calm, Stays, Risk, Outside, Within, Tame, SettledAs, QueueOut;
    FineNode(s, boxes, exempt, p);
    KnownPart(Total(s'.m), rejected, Total(s.m), multiset(queue), boxes);
    assert rejected + multiset{} == rejected;
    assert AgesOutside(s.ages, s'.ages, p) && Outside(s'.m, p) == Outside(s.m, p) by {
      BelowTops(s.m);
      if queue != [] { OutsideTop(s.m); OutsideTop(s'.m); }
    }
    StaysExtended(s, s');
    TameNone(s, boxes, p, movers, queue);
    QueueWithin(s, s', p, boxes, movers, queue, rejected);
    hide AgesOutside, Extends, Rejected;
    if queue == [] && Calm(s, boxes, p, movers) { CalmSettled(s, s', p, boxes, movers); }
  }

  lemma QueueWithin(s: State, s': State, p: Path, boxes: Boxes, movers: set<GameObject>, queue: seq<GameObject>,
                    rejected: multiset<GameObject>)
    requires s'.world == s.world && p in s.ages && s.m.Keys == s.ages.Keys && s.m.Keys <= s'.m.Keys == s'.ages.Keys
    requires s'.ages[p].built == s.ages[p].built && forall q <- s.m.Keys | q != p :: s'.ages[q] == s.ages[q]
    requires Total(s'.m) + rejected == Total(s.m) + multiset(queue)
    requires (queue == [] ==> s'.m == s.m) && Extends(s.m, s'.m)
    ensures Within(s, boxes, p, movers, queue, Risk(s', boxes, p, movers))
  {
    hide Total, Risk, Once;
    if Once(Total(s.m) + multiset(queue)) {
      assert Total(s'.m) <= Total(s'.m) + rejected;
      QueueRisk(s, s', boxes, p, movers, queue);
    } else if queue == [] {
      RiskLess(s, s', boxes, p, movers, movers);
    }
  }

  lemma StaysExtended(s: State, s': State)
    requires Extends(s.m, s'.m) && s'.m.Keys == s'.ages.Keys
    requires forall q <- s.m.Keys | q in s.ages && s.ages[q].built :: q in s'.ages && s'.ages[q].built
    ensures Stays(s, s', {})
  {}

  lemma CalmSettled(s: State, s': State, p: Path, boxes: Boxes, movers: set<GameObject>)
    requires s'.m == s.m && s'.world == s.world && s.m.Keys == s.ages.Keys == s'.ages.Keys
    requires forall q <- s.m.Keys :: s'.ages[q].built == s.ages[q].built
    requires Calm(s, boxes, p, movers)
    ensures Calm(s', boxes, p, movers)
  {
    hide Fills, Region;
    forall q <- s'.m.Keys | Below(p, q) && q in s'.ages ensures QuietAt(boxes, s.world, s'.m, s'.ages, q, movers) {
      assert QuietAt(boxes, s.world, s.m, s.ages, q, movers);
    }
  }

  lemma BelowTops(m: map<Path, seq<GameObject>>)
    ensures forall q <- m.Keys :: Below(Top, q)
  {
    forall q <- m.Keys ensures Below(Top, q) { BelowTop(q); }
  }

  lemma OutsideTop(m: map<Path, seq<GameObject>>)
    ensures Outside(m, Top) == map[]
  {
    BelowTops(m);
  }

  lemma FineParts(s: State, boxes: Boxes, exempt: set<GameObject>)
    requires Fine(s, boxes, exempt)
    ensures Sound(s.m, s.ages) && Placed(boxes, s.world, s.m, exempt)
  {}

  lemma ClearSound(m: map<Path, seq<GameObject>>, ages: map<Path, Age>, p: Path)
    requires Sound(m, ages) && p in m && ages[p].built
    ensures Sound(m, ages[p := ages[p].(ready := true, queued := false)])
  {
    var ages' := ages[p := ages[p].(ready := true, queued := false)];
    forall q <- m.Keys ensures SoundAt(m, ages', q) {
      assert SoundAt(m, ages, q);
    }
  }

  lemma JoinedHas(m: map<Path, seq<GameObject>>, p: Path, queue: seq<GameObject>)
    requires p in m
    ensures p in Joined(m, p, queue)
  {}

  // ----- aging, dropping, expiring

  ghost predicate Leaf(m: map<Path, seq<GameObject>>, p: Path)
  {
    forall k: Corner :: Kid(p, k) !in m
  }

  /** The state after the lifespan rules were applied at `p`. */
  ghost function Aged(s: State, p: Path): State
    requires p in s.m && p in s.ages
  {
    s.(ages := s.ages[p := NextAge(s.ages[p], s.m[p] == [], Leaf(s.m, p))])
  }

  lemma AgedFine(s: State, p: Path, boxes: Boxes, exempt: set<GameObject>, movers: set<GameObject>)
    requires Fine(s, boxes, exempt) && p in s.m && p in s.ages && s.ages[p].built
    ensures Fine(Aged(s, p), boxes, exempt)
    ensures s.m[p] != [] ==> Aged(s, p).ages[p].lifespan == -1
    ensures Aged(s, p).ages[p].built
    ensures Calm(s, boxes, p, movers) ==> Calm(Aged(s, p), boxes, p, movers)
  {
    hide Placed, Total, Grown, Region, Fills, SoundAt;
    AgingSound(s.m, s.ages, p, Leaf(s.m, p));
    if Calm(s, boxes, p, movers) {
      var s' := Aged(s, p);
      forall q <- s'.m.Keys | Below(p, q) && q in s'.ages ensures QuietAt(boxes, s'.world, s'.m, s'.ages, q, movers) {
        assert QuietAt(boxes, s.world, s.m, s.ages, q, movers);
      }
    }
  }

  /** The objects of `p` replaced by some of them. */
  ghost function Thinned(s: State, p: Path, objects: seq<GameObject>): State
  {
    s.(m := s.m[p := objects])
  }

  lemma ThinnedFine(s: State, p: Path, objects: seq<GameObject>, gone: multiset<GameObject>, boxes: Boxes,
                    exempt: set<GameObject>, movers: set<GameObject>)
    requires Fine(s, boxes, exempt) && p in s.m && p in s.ages && s.ages[p].built
    requires s.m[p] != [] ==> s.ages[p].lifespan == -1
    requires multiset(objects) + gone == multiset(s.m[p])
    ensures Fine(Thinned(s, p, objects), boxes, exempt)
    ensures Total(Thinned(s, p, objects).m) + gone == Total(s.m)
    ensures Calm(s, boxes, p, movers) ==> Calm(Thinned(s, p, objects), boxes, p, movers)
  {
    hide Total, Grown, Placed, Sound, Calm;
    var s' := Thinned(s, p, objects);
    forall o <- objects ensures o in s.m[p] {
      assert (multiset(objects) + gone)[o] > 0;
    }
    ThinnedSound(s, p, objects, gone);
    TotalSet(s.m, p, objects);
    ThinCancel(Total(s'.m), multiset(s.m[p]), Total(s.m), multiset(objects), gone);
    KnownPart(Total(s'.m), gone, Total(s.m), multiset{}, boxes);
    ThinnedPlaced(s, p, objects, boxes, exempt);
    assert s'.m.Keys == s.m.Keys;
    if Calm(s, boxes, p, movers) { ThinnedCalm(s, p, objects, boxes, movers); }
  }

  lemma ThinnedSound(s: State, p: Path, objects: seq<GameObject>, gone: multiset<GameObject>)
    requires Sound(s.m, s.ages) && p in s.m && (s.m[p] != [] ==> s.ages[p].lifespan == -1)
    requires multiset(objects) + gone == multiset(s.m[p])
    ensures Sound(s.m[p := objects], s.ages)
  {
    hide SoundAt;
    if s.m[p] == [] {
      assert multiset(objects) <= multiset(s.m[p]);
      assert |multiset(objects)| == |objects| == 0;
      assert s.m[p := objects] == s.m;
    } else {
      LosingSound(s.m, s.ages, p, objects);
    }
  }

  lemma ThinnedPlaced(s: State, p: Path, objects: seq<GameObject>, boxes: Boxes, exempt: set<GameObject>)
    requires p in s.m && Placed(boxes, s.world, s.m, exempt) && forall o <- objects :: o in s.m[p]
    ensures Placed(boxes, s.world, s.m[p := objects], exempt)
  {
    hide Region;
    var m := s.m[p := objects];
    forall q <- m.Keys | q != Top ensures PlacedAt(boxes, s.world, q, m[q], exempt) {
      assert PlacedAt(boxes, s.world, q, s.m[q], exempt);
    }
  }

  lemma ThinnedCalm(s: State, p: Path, objects: seq<GameObject>, boxes: Boxes, movers: set<GameObject>)
    requires p in s.m && p in s.ages && s.ages[p].built && Calm(s, boxes, p, movers)
      && forall o <- objects :: o in s.m[p]
    ensures Calm(Thinned(s, p, objects), boxes, p, movers)
  {
    hide Region, Fills;
    var s' := Thinned(s, p, objects);
    forall q <- s'.m.Keys | Below(p, q) && q in s'.ages ensures QuietAt(boxes, s'.world, s'.m, s'.ages, q, movers) {
      assert QuietAt(boxes, s.world, s.m, s.ages, q, movers);
    }
  }

  lemma ThinCancel<T>(t': multiset<T>, mp: multiset<T>, t: multiset<T>, objects: multiset<T>, gone: multiset<T>)
    requires t' + mp == t + objects && objects + gone == mp
    ensures t' + gone == t
    ensures t' + gone == t + multiset{}
  {
    assert t' + (objects + gone) - objects == t' + gone;
    assert t + objects - objects == t;
  }

  /** What the expiry of children keeps at `p`. */
  ghost predicate Trimmed(s: State, s': State, p: Path, boxes: Boxes, exempt: set<GameObject>, movers: set<GameObject>)
    requires p in s.m && p in s.ages
  {
    && Fine(s', boxes, exempt) && s'.world == s.world
    && p in s'.m && p in s'.ages && s'.m[p] == s.m[p] && s'.ages[p] == s.ages[p]
    && s'.m.Keys <= s.m.Keys
    && Total(s'.m) == Total(s.m) && Stays(s, s', {})
    && Outside(s'.m, p) == Outside(s.m, p) && AgesOutside(s.ages, s'.ages, p)
    && (Calm(s, boxes, p, movers) ==> Calm(s', boxes, p, movers))
    && Risk(s', boxes, p, movers) <= Risk(s, boxes, p, movers)
  }

  /** Corner `k` of the expiry loop. */
  ghost function Expired(s: State, p: Path, k: Corner): State
  {
    var kid := Kid(p, k);
    if kid in s.m && kid in s.ages && s.ages[kid].lifespan == 0 then
      if s.m[kid] == [] then State(s.world, s.m - {kid}, s.ages - {kid})
      else s.(ages := s.ages[kid := s.ages[kid].(lifespan := -1)])
    else s
  }

  /** Deleting an expired child discards no object: it has no children, so it is the whole subtree. */
  lemma ExpiredKeeps(s: State, p: Path, k: Corner, boxes: Boxes, exempt: set<GameObject>, movers: set<GameObject>)
    requires Fine(s, boxes, exempt) && p in s.m && p in s.ages
    ensures Trimmed(s, Expired(s, p, k), p, boxes, exempt, movers)
    ensures Kid(p, k) in s.m && Kid(p, k) !in Expired(s, p, k).m ==> forall j: Corner :: Kid(Kid(p, k), j) !in s.m
  {
    hide Total, Grown, Placed, Stays, Calm, Outside, AgesOutside, Sound, Risk;
    NotBelowKid(p, k);
    ExpiredRisk(s, p, k, boxes, movers);
    StaysExpiry(s, p, k);
    ExpiredParts(s, p, k, boxes, exempt);
    ExpiredSound(s, p, k);
    if Calm(s, boxes, p, movers) { ExpiredCalm(s, p, k, boxes, movers); }
    ExpiredOutside(s, p, k);
  }

  lemma ExpiredRisk(s: State, p: Path, k: Corner, boxes: Boxes, movers: set<GameObject>)
    requires Sound(s.m, s.ages)
    ensures Risk(Expired(s, p, k), boxes, p, movers) <= Risk(s, boxes, p, movers)
  {
    hide SoundAt, Risk;
    RiskLess(s, Expired(s, p, k), boxes, p, movers, movers);
  }

  lemma ExpiredParts(s: State, p: Path, k: Corner, boxes: Boxes, exempt: set<GameObject>)
    requires Fine(s, boxes, exempt)
    ensures var s' := Expired(s, p, k);
      Grown(s.world, s'.m.Keys) && Placed(boxes, s.world, s'.m, exempt) && Total(s'.m) == Total(s.m)
    ensures Kid(p, k) in s.m && Kid(p, k) !in Expired(s, p, k).m ==> forall j: Corner :: Kid(Kid(p, k), j) !in s.m
    ensures s.m.Keys == s.ages.Keys
  {
    hide Total, Grown, Placed;
    var kid, s' := Kid(p, k), Expired(s, p, k);
    if kid in s.m && kid !in s'.m {
      assert SoundAt(s.m, s.ages, kid);
      hide Sound, SoundAt;
      TotalLeftOut(s.m, kid);
      ExpiredShape(s.world, s.m.Keys, kid);
      assert s'.m.Keys == s.m.Keys - {kid};
      ExpiredPlaced(boxes, s.world, s.m, kid, exempt);
    }
  }

  lemma StaysExpiry(s: State, p: Path, k: Corner)
    ensures Stays(s, Expired(s, p, k), {})
  {
    var s' := Expired(s, p, k);
    forall q <- s.m.Keys | q in s.ages && s.ages[q].built ensures StaysAt(s, s', {}, q) {}
  }

  lemma TotalLeftOut(m: map<Path, seq<GameObject>>, kid: Path)
    requires kid in m && m[kid] == []
    ensures Total(m - {kid}) == Total(m)
  {
    TotalWithout(m, kid);
  }

  lemma ExpiredShape(world: BoundingBox, shape: set<Path>, kid: Path)
    requires Grown(world, shape) && kid.Kid? && forall j: Corner :: Kid(kid, j) !in shape
    ensures Grown(world, shape - {kid})
  {
    hide Small, Region;
    forall p | p in shape - {kid} && p.Kid? ensures p.up != kid {
      assert p == Kid(p.up, p.corner);
    }
  }

  lemma ExpiredPlaced(boxes: Boxes, world: BoundingBox, m: map<Path, seq<GameObject>>, kid: Path,
                      exempt: set<GameObject>)
    requires Placed(boxes, world, m, exempt)
    ensures Placed(boxes, world, m - {kid}, exempt)
  {
    hide PlacedAt;
  }

  lemma ExpiredSound(s: State, p: Path, k: Corner)
    requires Sound(s.m, s.ages)
    ensures Sound(Expired(s, p, k).m, Expired(s, p, k).ages)
  {
    var kid := Kid(p, k);
    var s' := Expired(s, p, k);
    if kid in s.m { assert SoundAt(s.m, s.ages, kid); }
    forall q <- s'.m.Keys ensures SoundAt(s'.m, s'.ages, q) {
      assert SoundAt(s.m, s.ages, q);
      if q.Kid? && q.up == kid { assert q == Kid(kid, q.corner); }
    }
  }

  lemma ExpiredCalm(s: State, p: Path, k: Corner, boxes: Boxes, movers: set<GameObject>)
    requires Sound(s.m, s.ages) && Calm(s, boxes, p, movers)
    ensures Calm(Expired(s, p, k), boxes, p, movers)
  {
    hide Region, Fills, SoundAt;
    var s' := Expired(s, p, k);
    forall q <- s'.m.Keys | Below(p, q) && q in s'.ages ensures QuietAt(boxes, s'.world, s'.m, s'.ages, q, movers) {
      assert QuietAt(boxes, s.world, s.m, s.ages, q, movers);
    }
  }

  lemma ExpiredOutside(s: State, p: Path, k: Corner)
    ensures Outside(Expired(s, p, k).m, p) == Outside(s.m, p)
    ensures AgesOutside(s.ages, Expired(s, p, k).ages, p)
  {
    assert Below(p, p) && Below(p, Kid(p, k));
  }

  lemma TrimmedTrans(s: State, s1: State, s2: State, p: Path, boxes: Boxes, exempt: set<GameObject>,
                     movers: set<GameObject>)
    requires p in s.m && p in s.ages && Trimmed(s, s1, p, boxes, exempt, movers)
      && Trimmed(s1, s2, p, boxes, exempt, movers)
    ensures Trimmed(s, s2, p, boxes, exempt, movers)
  {
    hide Fine, Calm, Total, Outside, Stays, Risk;
    StaysTrans(s, s1, s2, {}, {}, {});
  }

  lemma TrimmedSelf(s: State, p: Path, boxes: Boxes, exempt: set<GameObject>, movers: set<GameObject>)
    requires Fine(s, boxes, exempt) && p in s.m && p in s.ages
    ensures Trimmed(s, s, p, boxes, exempt, movers)
  {
    hide Fine, Calm, Total, Outside, Stays, Risk;
    StaysSelf(s);
  }

  lemma TrimmedFine(s: State, s': State, p: Path, boxes: Boxes, exempt: set<GameObject>, movers: set<GameObject>)
    requires p in s.m && p in s.ages && Trimmed(s, s', p, boxes, exempt, movers)
    ensures Fine(s', boxes, exempt) && p in s'.m && p in s'.ages
  {
    hide Fine, Calm, Total, Outside;
  }

  // ----- a node ready for its children

  /** What is known of the objects while a tree is updated: their boxes, which are dirty, which are marked. */
  datatype View = View(boxes: Boxes, dirty: set<GameObject>, marked: set<GameObject>) {
    function Soiled(): set<GameObject> { dirty + marked }

    function Movers(): set<GameObject> { dirty - marked }
  }

  /** The steps of `Update` at `p` up to its children. */
  ghost predicate Prepared(s: State, s': State, p: Path, v: View, v': View, pending: set<GameObject>,
                           queue: seq<GameObject>, moved: seq<GameObject>, gone: multiset<GameObject>,
                           rejected: multiset<GameObject>, overwritten: multiset<GameObject>)
  {
    && Fine(s', v.boxes, pending + Elements(moved) + v'.dirty) && s'.world == s.world
    && v'.boxes == v.boxes && v'.marked == v.marked && v'.dirty <= v.dirty
    && p in s'.m && p in s'.ages && s'.ages[p].built && !s'.ages[p].queued
      && (moved != [] ==> s'.ages[p].lifespan == -1)
    && AgesOutside(s.ages, s'.ages, p) && Outside(s'.m, p) == Outside(s.m, p)
    && Total(s'.m) + gone + (rejected + overwritten) == Total(s.m) + multiset(queue)
    && (forall o <- gone :: o in v.marked) && Rejected(s, v.boxes, rejected)
    && Spotless(s'.m[p], v'.Soiled()) && Stays(s, s', v.Soiled()) && Elements(moved) <= v.Movers()
    && Distinct(moved) && (forall o <- moved :: o in s'.m[p])
    && (queue == [] && Calm(s, v.boxes, p, v.Movers()) ==>
          && rejected == overwritten == multiset{} && Calm(s', v.boxes, p, v'.Movers())
          && forall o <- moved :: Region(s.world, p).Contains(BoxOf(v.boxes, o)))
    && (queue == [] ==> rejected == multiset{})
    && Within(s, v.boxes, p, v.Movers(), queue,
              Risk(s', v.boxes, p, v'.Movers()) + Leavers(s.world, v.boxes, p, Elements(moved)))
    && Tame(s, v.boxes, p, v.Movers(), queue, overwritten)
  }

  lemma CalmFewer(s: State, boxes: Boxes, p: Path, movers: set<GameObject>, movers': set<GameObject>)
    requires Calm(s, boxes, p, movers) && movers' <= movers
    ensures Calm(s, boxes, p, movers')
  {
    hide Region, Fills;
    forall q <- s.m.Keys | Below(p, q) && q in s.ages ensures QuietAt(boxes, s.world, s.m, s.ages, q, movers') {
      assert QuietAt(boxes, s.world, s.m, s.ages, q, movers);
    }
  }

  lemma CalmHere(s: State, boxes: Boxes, p: Path, movers: set<GameObject>)
    requires Calm(s, boxes, p, movers) && p in s.m && p in s.ages
    ensures forall o <- s.m[p] | o in movers :: Region(s.world, p).Contains(BoxOf(boxes, o))
  {
    assert QuietAt(boxes, s.world, s.m, s.ages, p, movers);
  }

  /** The books after the queue was taken in, the marked objects dropped and the children trimmed. */
  lemma Balance<T>(t0: multiset<T>, q: multiset<T>, t1: multiset<T>, lost: multiset<T>, t3: multiset<T>,
                   gone: multiset<T>)
    requires t1 + lost == t0 + q && t3 + gone == t1
    ensures t3 + gone + lost == t0 + q
  {}

  /** How the dirty flags change at `p`. */
  ghost predicate Cleans(v: View, v': View, objects: seq<GameObject>, moved: seq<GameObject>)
  {
    && v'.boxes == v.boxes && v'.marked == v.marked && v'.dirty == v.dirty - Elements(moved)
    && Elements(moved) <= v.dirty && Distinct(moved)
    && (forall o <- moved :: o in objects)
    && forall o <- objects :: o !in v'.dirty
  }

  lemma PreparedBy(s: State, s1: State, s4: State, p: Path, v: View, v': View, pending: set<GameObject>,
                   queue: seq<GameObject>, objects: seq<GameObject>, moved: seq<GameObject>, gone: multiset<GameObject>,
                   rejected: multiset<GameObject>, overwritten: multiset<GameObject>)
    requires p in s.m && p in s.ages && p in s1.m && p in s1.ages
    requires Settles(s, s1, p, v.boxes, pending + v.dirty, v.Movers(), queue, rejected, overwritten)
    requires multiset(objects) + gone == multiset(s1.m[p])
    requires (forall o <- gone :: o in v.marked) && forall o <- objects :: o !in v.marked
    requires Cleans(v, v', objects, moved)
    requires Trimmed(Thinned(Aged(s1, p), p, objects), s4, p, v.boxes, pending + Elements(moved) + v'.dirty,
                     v'.Movers())
    ensures Prepared(s, s4, p, v, v', pending, queue, moved, gone, rejected, overwritten)
  {
    hide Total, Region, Calm, Fine, Outside, AgesOutside, Stays, Risk, Tame, Leavers, Within, SettledAs, QueueOut;
    var s2 := Aged(s1, p);
    var s3 := Thinned(s2, p, objects);
    PreparedWithin(s, s1, s4, p, v, v', pending, queue, objects, moved, gone, rejected, overwritten);
    StaysThinned(s1, p, objects, gone, v.marked);
    StaysTrans(s, s1, s3, {}, v.marked, v.Soiled());
    StaysTrans(s, s3, s4, v.Soiled(), {}, v.Soiled());
    AgedFine(s1, p, v.boxes, pending + v.dirty, v.Movers());
    ThinnedFine(s2, p, objects, gone, v.boxes, pending + v.dirty, v.Movers());
    Balance(Total(s.m), multiset(queue), Total(s1.m), rejected + overwritten, Total(s3.m), gone);
    ThinnedOutside(s, s1, s2, s3, s4, p, objects);
    if queue == [] && Calm(s, v.boxes, p, v.Movers()) {
      CalmHere(s3, v.boxes, p, v.Movers());
      CalmFewer(s3, v.boxes, p, v.Movers(), v'.Movers());
    }
    if moved != [] {
      assert moved[0] in objects;
      assert s1.m[p] != [] by {
        assert objects[0] in multiset(objects) + gone;
        assert multiset(s1.m[p]) != multiset{};
      }
    }
  }

  lemma GivenObjects(objects: seq<GameObject>, gone: multiset<GameObject>, all: seq<GameObject>)
    requires multiset(objects) + gone == multiset(all)
    ensures forall o <- objects :: o in all
  {
    forall o <- objects ensures o in all {
      assert o in multiset(objects) + gone;
    }
  }

  lemma PreparedWithin(s: State, s1: State, s4: State, p: Path, v: View, v': View, pending: set<GameObject>,
                       queue: seq<GameObject>, objects: seq<GameObject>, moved: seq<GameObject>,
                       gone: multiset<GameObject>, rejected: multiset<GameObject>, overwritten: multiset<GameObject>)
    requires p in s.m && p in s.ages && p in s1.m && p in s1.ages
    requires Settles(s, s1, p, v.boxes, pending + v.dirty, v.Movers(), queue, rejected, overwritten)
    requires multiset(objects) + gone == multiset(s1.m[p]) && forall o <- objects :: o !in v.marked
    requires Cleans(v, v', objects, moved)
    requires Trimmed(Thinned(Aged(s1, p), p, objects), s4, p, v.boxes, pending + Elements(moved) + v'.dirty,
                     v'.Movers())
    ensures Within(s, v.boxes, p, v.Movers(), queue,
                   Risk(s4, v.boxes, p, v'.Movers()) + Leavers(s.world, v.boxes, p, Elements(moved)))
  {
    hide Total, Region, Calm, Fine, Outside, AgesOutside, Stays, Risk, Tame, Leavers, Once, Rejected;
    FineNode(s1, v.boxes, pending + v.dirty, p);
    GivenObjects(objects, gone, s1.m[p]);
    PreparedRisk(s1, p, v, v', objects, moved);
  }

  /** The objects that were at risk include those that are to leave their node. */
  lemma PreparedRisk(s1: State, p: Path, v: View, v': View, objects: seq<GameObject>, moved: seq<GameObject>)
    requires p in s1.m && p in s1.ages && s1.m.Keys == s1.ages.Keys && (forall o <- objects :: o in s1.m[p])
    requires (forall o <- objects :: o !in v.marked) && Cleans(v, v', objects, moved)
    ensures var s3 := Thinned(Aged(s1, p), p, objects);
      Risk(s3, v.boxes, p, v'.Movers())
        + Leavers(s1.world, v.boxes, p, Elements(moved)) <= Risk(s1, v.boxes, p, v.Movers())
  {
    hide Region, BoxOf;
    RiskLess(s1, Thinned(Aged(s1, p), p, objects), v.boxes, p, v.Movers(), v'.Movers());
    BelowRefl(p);
    forall o <- Leavers(s1.world, v.boxes, p, Elements(moved)) ensures o in Risk(s1, v.boxes, p, v.Movers()) {
      assert o in moved && o in objects;
      assert o in s1.m[p] && o in v.Movers() && Risky(s1, v.boxes, v.Movers(), p, o);
    }
  }

  lemma StaysThinned(s: State, p: Path, objects: seq<GameObject>, gone: multiset<GameObject>, marked: set<GameObject>)
    requires p in s.m && p in s.ages && multiset(objects) + gone == multiset(s.m[p]) && forall o <- gone :: o in marked
    ensures Stays(s, Thinned(Aged(s, p), p, objects), marked)
  {
    var s' := Thinned(Aged(s, p), p, objects);
    forall o <- s.m[p] | o !in marked ensures o in objects {
      assert o in multiset(s.m[p]);
      assert o in multiset(objects) + gone;
    }
    forall q <- s.m.Keys | q in s.ages && s.ages[q].built ensures StaysAt(s, s', marked, q) {}
  }

  lemma ThinnedOutside(s: State, s1: State, s2: State, s3: State, s4: State, p: Path, objects: seq<GameObject>)
    requires p in s1.m && p in s1.ages && s2 == Aged(s1, p) && s3 == Thinned(s2, p, objects)
    requires Outside(s1.m, p) == Outside(s.m, p) && AgesOutside(s.ages, s1.ages, p)
    requires Outside(s4.m, p) == Outside(s3.m, p) && AgesOutside(s3.ages, s4.ages, p)
    ensures Outside(s4.m, p) == Outside(s.m, p) && AgesOutside(s.ages, s4.ages, p)
  {
    assert Below(p, p);
    assert Outside(s3.m, p) == Outside(s1.m, p);
  }

  lemma SettledThenThinned(s: State, s1: State, p: Path, boxes: Boxes, exempt: set<GameObject>, movers: set<GameObject>,
                           queue: seq<GameObject>, objects: seq<GameObject>, gone: multiset<GameObject>,
                           rejected: multiset<GameObject>, overwritten: multiset<GameObject>)
    requires p in s.m && p in s.ages && p in s1.m && p in s1.ages
    requires Settles(s, s1, p, boxes, exempt, movers, queue, rejected, overwritten)
    requires multiset(objects) + gone == multiset(s1.m[p])
    ensures Fine(Thinned(Aged(s1, p), p, objects), boxes, exempt)
    ensures (forall o <- objects :: o in boxes) && forall o <- gone :: o in boxes
  {
    hide Total, Region, Calm, Fine, Outside, AgesOutside;
    AgedFine(s1, p, boxes, exempt, movers);
    ThinnedFine(Aged(s1, p), p, objects, gone, boxes, exempt, movers);
    FineNode(s1, boxes, exempt, p);
    forall o <- multiset(objects) + gone ensures o in boxes {}
    forall o <- objects ensures o in boxes {
      assert o in multiset(objects) + gone;
    }
    forall o <- gone ensures o in boxes {
      assert o in multiset(objects) + gone;
    }
  }

  // ----- the whole tick at a node

  /** One `Update` of the node at `p`. Objects are accounted for: what is not in the tree any more was marked,
      rejected at the top or overwritten; outside the subtree objects are only appended, and nothing soiled is
      stored in the subtree; in nodes that were built, objects that were neither dirty nor marked stay where they are; a
      calm subtree loses nothing and leaves the rest of the tree alone; with fewer than three objects at risk nothing is
      overwritten; when no object is to move, all nodes of the subtree are built afterwards. */
  ghost predicate Ticks(s: State, s': State, p: Path, v: View, v': View, pending: set<GameObject>,
                        queue: seq<GameObject>, gone: multiset<GameObject>, rejected: multiset<GameObject>,
                        overwritten: multiset<GameObject>)
  {
    && Fine(s', v.boxes, pending + v'.dirty) && s'.world == s.world
    && p in s'.m && p in s'.ages && s'.ages[p].built && !s'.ages[p].queued
    && AgesOutside(s.ages, s'.ages, p)
    && Grew(s.m, s'.m, p, v'.Soiled()) && Tidy(s'.m, p, v'.Soiled())
    && v'.boxes == v.boxes && v'.marked == v.marked && v'.dirty <= v.dirty
    && Total(s'.m) + gone + (rejected + overwritten) == Total(s.m) + multiset(queue)
    && (forall o <- gone :: o in v.marked) && Rejected(s, v.boxes, rejected) && Stays(s, s', v.Soiled())
    && (queue == [] && Calm(s, v.boxes, p, v.Movers()) ==>
          rejected == overwritten == multiset{} && Outside(s'.m, p) == Outside(s.m, p))
    && (queue == [] ==>
          Flows(s, s', p, v.boxes, v.Movers(), v'.Movers()) && forall o <- rejected :: o in v.Movers())
    && Tame(s, v.boxes, p, v.Movers(), queue, overwritten)
    && (v.Movers() == {} ==> Outside(s'.m, p) == Outside(s.m, p) && AllBuilt(s', p))
  }

  // ----- the children

  /** The children of `p` that were active when the loop began, from `n` on, are still to be updated. */
  ghost predicate Partway(s: State, s': State, p: Path, v: View, v': View, pending: set<GameObject>, due: set<Corner>,
                          n: nat, gone: multiset<GameObject>, rejected: multiset<GameObject>,
                          overwritten: multiset<GameObject>)
  {
    && Fine(s', v.boxes, pending + v'.dirty) && s'.world == s.world
    && p in s.m && p in s.ages && p in s'.m && p in s'.ages && s'.ages[p] == s.ages[p]
    && AgesOutside(s.ages, s'.ages, p)
    && Grew(s.m, s'.m, p, v'.Soiled())
    && s.m[p] <= s'.m[p] && Spotless(s'.m[p], v'.Soiled())
    && Visited(s'.m, p, due, n, v'.Soiled()) && (forall k <- due | n <= k :: Kid(p, k) in s'.m)
    && v'.boxes == v.boxes && v'.marked == v.marked && v'.dirty <= v.dirty
    && Total(s'.m) + gone + (rejected + overwritten) == Total(s.m)
    && (forall o <- gone :: o in v.marked) && Rejected(s, v.boxes, rejected) && Stays(s, s', v.Soiled())
    && (Calm(s, v.boxes, p, v.Movers()) ==>
          && rejected == overwritten == multiset{} && Outside(s'.m, p) == Outside(s.m, p) && s'.m[p] == s.m[p]
          && forall k <- due | n <= k :: Calm(s', v.boxes, Kid(p, k), v'.Movers()))
    && Drifts(s, s', p, due, n, v.boxes, v.Movers(), v'.Movers()) && Tame(s, v.boxes, p, v.Movers(), [], overwritten)
    && (forall o <- rejected :: o in v.Movers())
    && (v.Movers() == {} ==>
          Outside(s'.m, p) == Outside(s.m, p) && s'.m[p] == s.m[p] && BuiltSoFar(s', p, due, n))
  }

  lemma PartwayStart(s: State, p: Path, v: View, pending: set<GameObject>, due: set<Corner>)
    requires Fine(s, v.boxes, pending + v.dirty) && p in s.m && p in s.ages && Spotless(s.m[p], v.Soiled())
    requires forall k: Corner :: k in due <==> Kid(p, k) in s.m
    ensures Partway(s, s, p, v, v, pending, due, 0, multiset{}, multiset{}, multiset{})
  {
    hide Fine, Total, QuietAt, Outside, Stays, Risk, Drifts, BuiltSoFar, Tame;
    StaysSelf(s);
    StaysTrans(s, s, s, {}, {}, v.Soiled());
    assert forall q <- s.m.Keys :: s.m[q][|s.m[q]|..] == [];
    forall q <- s.m.Keys | Below(p, q) && q != p ensures Toward(p, q) in due {
      InsideGrown(s, v.boxes, pending + v.dirty, p, q);
    }
    assert Visited(s.m, p, due, 0, v.Soiled());
    DriftStart(s, p, due, v.boxes, v.Movers());
    TameNone(s, v.boxes, p, v.Movers(), []);
    BuiltStart(s, p, due);
    if Calm(s, v.boxes, p, v.Movers()) {
      forall k <- due ensures Calm(s, v.boxes, Kid(p, k), v.Movers()) {
        CalmKid(s, v.boxes, p, k, v.Movers());
      }
    }
  }

  lemma InsideGrown(s: State, boxes: Boxes, exempt: set<GameObject>, p: Path, q: Path)
    requires Fine(s, boxes, exempt) && p in s.m && q in s.m && Below(p, q) && q != p
    ensures Kid(p, Toward(p, q)) in s.m
  {
    hide Sound, Placed, Small, Total, Region;
    GrownAbove(s.world, s.m.Keys, p, q);
  }

  lemma CalmKid(s: State, boxes: Boxes, p: Path, k: Corner, movers: set<GameObject>)
    requires Calm(s, boxes, p, movers)
    ensures Calm(s, boxes, Kid(p, k), movers)
  {
    hide QuietAt;
    forall q <- s.m.Keys | Below(Kid(p, k), q) ensures Below(p, q) { KidsApart(p, k, q); }
  }

  lemma PartwaySkip(s: State, s': State, p: Path, v: View, v': View, pending: set<GameObject>, due: set<Corner>,
                    k: Corner, gone: multiset<GameObject>, rejected: multiset<GameObject>,
                    overwritten: multiset<GameObject>)
    requires Partway(s, s', p, v, v', pending, due, k, gone, rejected, overwritten) && k !in due
    ensures Partway(s, s', p, v, v', pending, due, k + 1, gone, rejected, overwritten)
  {
    hide Fine, Total, Calm, Outside, Grew, AgesOutside, Visited, Spotless, Stays, Drifts, Tame, BuiltSoFar;
    VisitSkip(s'.m, p, due, k, v'.Soiled());
    DriftMore(s, s', p, due, k, k + 1, v.boxes, v.Movers(), v'.Movers());
    BuiltSkip(s', p, due, k, k + 1);
  }

  /** No child is left from `n` on. */
  lemma PartwayRest(s: State, s': State, p: Path, v: View, v': View, pending: set<GameObject>, due: set<Corner>, n: nat,
                    gone: multiset<GameObject>, rejected: multiset<GameObject>, overwritten: multiset<GameObject>)
    requires Partway(s, s', p, v, v', pending, due, n, gone, rejected, overwritten) && n <= 8
      && forall k <- due :: k < n
    ensures Partway(s, s', p, v, v', pending, due, 8, gone, rejected, overwritten)
  {
    hide Fine, Total, Calm, Outside, Grew, AgesOutside, Spotless, Drifts, Tame, BuiltSoFar;
    DriftMore(s, s', p, due, n, 8, v.boxes, v.Movers(), v'.Movers());
    if v.Movers() == {} { BuiltSkip(s', p, due, n, 8); }
  }

  lemma AddUp<T>(t2: multiset<T>, g2: multiset<T>, r2: multiset<T>, o2: multiset<T>, t1: multiset<T>,
                 g1: multiset<T>, r1: multiset<T>, o1: multiset<T>, t0: multiset<T>)
    requires t2 + g2 + (r2 + o2) == t1 && t1 + g1 + (r1 + o1) == t0
    ensures t2 + (g1 + g2) + ((r1 + r2) + (o1 + o2)) == t0
  {
    calc {
      t2 + (g1 + g2) + ((r1 + r2) + (o1 + o2));
      (t2 + g2 + (r2 + o2)) + g1 + (r1 + o1);
      t0;
    }
  }

  /** One child updated. */
  lemma PartwayStep(s: State, s1: State, s2: State, p: Path, v: View, v1: View, v2: View, pending: set<GameObject>,
                    due: set<Corner>, k: Corner,
                    g1: multiset<GameObject>, r1: multiset<GameObject>, o1: multiset<GameObject>,
                    g2: multiset<GameObject>, r2: multiset<GameObject>, o2: multiset<GameObject>)
    requires Partway(s, s1, p, v, v1, pending, due, k, g1, r1, o1) && k in due
    requires Ticks(s1, s2, Kid(p, k), v1, v2, pending, [], g2, r2, o2)
    ensures Partway(s, s2, p, v, v2, pending, due, k + 1, g1 + g2, r1 + r2, o1 + o2)
  {
    hide Fine, Total, Calm, Outside, QuietAt, BoxOf, Stays, Rejected, Grew, Tidy, AgesOutside, Visited, Spotless;
    hide Drifts, Tame, BuiltSoFar, Flows, AllBuilt;
    PartwayRisk(s, s1, s2, p, v, v1, v2, pending, due, k, g1, r1, o1, g2, r2, o2);
    StaysTrans(s, s1, s2, v.Soiled(), v1.Soiled(), v.Soiled());
    RejectedBoth(s, s1, v.boxes, r1, r2);
    assert Below(p, Kid(p, k));
    GrewUp(s1.m, s2.m, p, Kid(p, k), v2.Soiled());
    GrewTrans(s.m, s1.m, s2.m, p, v1.Soiled(), v2.Soiled());
    VisitStep(s1.m, s2.m, p, due, k, v1.Soiled(), v2.Soiled());
    PartwayHere(s1.m, s2.m, p, k, v1.Soiled(), v2.Soiled());
    PartwayAges(s, s1, s2, p, k);
    assert Total(s1.m) + multiset([]) == Total(s1.m);
    AddUp(Total(s2.m), g2, r2, o2, Total(s1.m), g1, r1, o1, Total(s.m));
    if Calm(s, v.boxes, p, v.Movers()) {
      PartwayCalm(s, s1, s2, p, v, v1, v2, pending, due, k, g1, r1, o1, g2, r2, o2);
    }
  }

  lemma AmongBoth(a: multiset<GameObject>, b: multiset<GameObject>, all: set<GameObject>)
    requires (forall o <- a :: o in all) && forall o <- b :: o in all
    ensures forall o <- a + b :: o in all
  {}

  lemma PartwayRisk(s: State, s1: State, s2: State, p: Path, v: View, v1: View, v2: View, pending: set<GameObject>,
                    due: set<Corner>, k: Corner,
                    g1: multiset<GameObject>, r1: multiset<GameObject>, o1: multiset<GameObject>,
                    g2: multiset<GameObject>, r2: multiset<GameObject>, o2: multiset<GameObject>)
    requires Partway(s, s1, p, v, v1, pending, due, k, g1, r1, o1) && k in due
    requires Ticks(s1, s2, Kid(p, k), v1, v2, pending, [], g2, r2, o2)
    ensures Drifts(s, s2, p, due, k + 1, v.boxes, v.Movers(), v2.Movers())
    ensures Tame(s, v.boxes, p, v.Movers(), [], o1 + o2) && forall o <- r1 + r2 :: o in v.Movers()
    ensures v.Movers() == {} ==>
      Outside(s2.m, p) == Outside(s.m, p) && s2.m[p] == s.m[p] && BuiltSoFar(s2, p, due, k + 1)
  {
    hide Total, Calm, Outside, QuietAt, BoxOf, Stays, Rejected, Grew, Tidy, AgesOutside, Visited, Spotless;
    hide Drifts, Tame, BuiltSoFar, Flows, AllBuilt, Risk, Fine;
    assert s1.m.Keys == s1.ages.Keys by { FineNode(s1, v.boxes, pending + v1.dirty, p); }
    DriftStep(s, s1, s2, p, due, k, v.boxes, v.Movers(), v1.Movers(), v2.Movers());
    DriftRisk(s, s1, p, due, k, v.boxes, v.Movers(), v1.Movers());
    assert Total(s1.m) <= Total(s1.m) + g1 + (r1 + o1);
    WithinSelf(s, v.boxes, p, v.Movers(), Risk(s1, v.boxes, Kid(p, k), v1.Movers()));
    TameLess(s, p, v.Movers(), [], s1, Kid(p, k), v1.Movers(), v.boxes, o2);
    TameSum(s, p, v.Movers(), [], v.boxes, o1, o2);
    AmongBoth(r1, r2, v.Movers());
    if v.Movers() == {} {
      BuiltStep(s1, s2, p, due, k);
      OutsideWider(s1.m, s2.m, p, k);
    }
  }

  /** What the update of child `k` does to its parent and its siblings. */
  lemma PartwayHere(m: map<Path, seq<GameObject>>, m': map<Path, seq<GameObject>>, p: Path, k: Corner,
                    soiled: set<GameObject>, soiled': set<GameObject>)
    requires Grew(m, m', Kid(p, k), soiled') && p in m && Spotless(m[p], soiled) && soiled' <= soiled
    ensures p in m' && m[p] <= m'[p] && Spotless(m'[p], soiled')
    ensures forall j: Corner | j != k :: Kid(p, j) in m ==> Kid(p, j) in m'
  {
    NotBelowKid(p, k);
    assert m'[p] == m[p] + m'[p][|m[p]|..];
    forall j: Corner | j != k ensures !Below(Kid(p, k), Kid(p, j)) { SiblingsApart(p, k, j); }
  }

  lemma SiblingsApart(p: Path, k: Corner, j: Corner)
    requires j != k
    ensures !Below(Kid(p, k), Kid(p, j))
  {
    NotBelowKid(p, j);
    OtherKid(p, k, j, Kid(p, j));
  }

  lemma PartwayAges(s: State, s1: State, s2: State, p: Path, k: Corner)
    requires AgesOutside(s.ages, s1.ages, p) && AgesOutside(s1.ages, s2.ages, Kid(p, k))
    requires p in s1.ages
    ensures AgesOutside(s.ages, s2.ages, p) && p in s2.ages && s2.ages[p] == s1.ages[p]
  {
    NotBelowKid(p, k);
    forall q <- s.ages.Keys | !Below(p, q) ensures q in s2.ages && s2.ages[q] == s.ages[q] {
      if Below(Kid(p, k), q) { KidsApart(p, k, q); }
    }
  }

  lemma PartwayCalm(s: State, s1: State, s2: State, p: Path, v: View, v1: View, v2: View, pending: set<GameObject>,
                    due: set<Corner>, k: Corner,
                    g1: multiset<GameObject>, r1: multiset<GameObject>, o1: multiset<GameObject>,
                    g2: multiset<GameObject>, r2: multiset<GameObject>, o2: multiset<GameObject>)
    requires Partway(s, s1, p, v, v1, pending, due, k, g1, r1, o1) && k in due
    requires Ticks(s1, s2, Kid(p, k), v1, v2, pending, [], g2, r2, o2)
    requires Calm(s, v.boxes, p, v.Movers())
    ensures r1 + r2 == o1 + o2 == multiset{} && Outside(s2.m, p) == Outside(s.m, p) && s2.m[p] == s.m[p]
    ensures forall j <- due | k + 1 <= j :: Calm(s2, v.boxes, Kid(p, j), v2.Movers())
  {
    hide Total, QuietAt, Grew, Tidy, Visited, Placed, SoundAt, Grown, Small, Region;
    assert Calm(s1, v.boxes, Kid(p, k), v1.Movers());
    OutsideWider(s1.m, s2.m, p, k);
    forall j <- due | k + 1 <= j ensures Calm(s2, v.boxes, Kid(p, j), v2.Movers()) {
      QuietElsewhere(v.boxes, s1.world, s1.m, s1.ages, v1.Movers(), s2.m, s2.ages, v2.Movers(), p, k, j);
    }
  }

  lemma OutsideWider(m: map<Path, seq<GameObject>>, m': map<Path, seq<GameObject>>, p: Path, k: Corner)
    requires Outside(m', Kid(p, k)) == Outside(m, Kid(p, k)) && p in m
    ensures Outside(m', p) == Outside(m, p) && p in m' && m'[p] == m[p]
  {
    NotBelowKid(p, k);
    assert p in Outside(m, Kid(p, k)) && p in Outside(m', Kid(p, k));
    forall q | !Below(p, q) ensures !Below(Kid(p, k), q) {
      if Below(Kid(p, k), q) { KidsApart(p, k, q); }
    }
    forall q <- m.Keys | !Below(p, q) ensures q in m'
      && m'[q] == m[q] { assert q in Outside(m, Kid(p, k)); assert q in Outside(m', Kid(p, k)); }
    forall q <- m'.Keys | !Below(p, q) ensures q in m { assert q in Outside(m', Kid(p, k)); }
  }

  /** All children updated: the subtree is tidy. */
  lemma PartwayEnd(s: State, s': State, p: Path, v: View, v': View, pending: set<GameObject>, due: set<Corner>, n: nat,
                   gone: multiset<GameObject>, rejected: multiset<GameObject>, overwritten: multiset<GameObject>)
    requires Partway(s, s', p, v, v', pending, due, n, gone, rejected, overwritten) && forall k <- due :: k < n
    ensures Tidy(s'.m, p, v'.Soiled())
  {
    hide Fine, Total, Calm, Outside;
    VisitEnd(s'.m, p, due, n, v'.Soiled());
  }

  // ----- moved objects

  /** Where the relocation of a moved object starts: a flat one where it is, any other at the nearest region around
      it. */
  function Start(world: BoundingBox, p: Path, box: BoundingBox): (q: Path)
  {
    if box.IsPoint() then p else Climb(world, p, box)
  }

  /** The object `x` of `p` taken out and inserted again, as a relation of the states. */
  ghost predicate Relocated(s: State, s': State, p: Path, x: GameObject, box: BoundingBox)
    requires p in s.m
  {
    var m := s.m[p := Without(s.m[p], x)];
    var home := Home(s.world, m, Start(s.world, p, box), box);
    && s'.world == s.world
    && s'.m == (if home.Some? then Put(m, home.value, x) else m)
    && s'.ages.Keys == s'.m.Keys
    && forall q <- s'.m.Keys :: s'.ages[q] == if q in m && q in s.ages then s.ages[q] else NEW_AGE
  }

  lemma RelocatedBy(s: State, s': State, p: Path, x: GameObject, box: BoundingBox)
    requires p in s.m && s.m.Keys == s.ages.Keys && s'.m.Keys == s'.ages.Keys && s'.world == s.world
    requires var m := s.m[p := Without(s.m[p], x)];
      var home := Home(s.world, m, Start(s.world, p, box), box);
      s'.m == if home.Some? then Put(m, home.value, x) else m
    requires forall q <- s'.m.Keys :: s'.ages[q] == if q in s.m then s.ages[q] else NEW_AGE
    ensures Relocated(s, s', p, x, box)
  {
    hide Home, Start, Put, Without;
  }

  /** The moved objects of `p` are being relocated; those in `rest` still wait. */
  ghost predicate Moving(s: State, s': State, p: Path, v: View, others: set<GameObject>, rest: seq<GameObject>,
                         all: set<GameObject>, inside: bool, rejected: multiset<GameObject>)
  {
    && Fine(s', v.boxes, others + Elements(rest)) && s'.world == s.world
    && OnceBut(Total(s'.m), others)
    && p in s.m && p in s.ages && p in s'.m && p in s'.ages && s'.ages[p] == s.ages[p]
    && (rest != [] ==> s.ages[p].lifespan == -1)
    && AgesOutside(s.ages, s'.ages, p)
    && Grew(s.m, s'.m, p, v.Soiled()) && Tidy(s'.m, p, v.Soiled())
    && Distinct(rest) && (forall o <- rest :: o in s'.m[p]) && Elements(rest) <= all && Stays(s, s', all)
    && Total(s'.m) + rejected == Total(s.m) && Rejected(s, v.boxes, rejected)
    && (inside ==>
          && rejected == multiset{} && Outside(s'.m, p) == Outside(s.m, p)
          && forall o <- rest :: Region(s.world, p).Contains(BoxOf(v.boxes, o)))
    && Landed(s, s', p, v.boxes, all) && (all == {} ==> s' == s) && (forall o <- rejected :: o in all)
  }

  /** The object taken out of its node. */
  lemma MoveOut(s: State, p: Path, x: GameObject, boxes: Boxes, exempt: set<GameObject>)
    requires Fine(s, boxes, exempt) && p in s.m && p in s.ages && x in s.m[p] && s.ages[p].lifespan == -1
    ensures var m := s.m[p := Without(s.m[p], x)];
      && Sound(m, s.ages) && Placed(boxes, s.world, m, exempt) && m.Keys == s.m.Keys
      && Total(m) + multiset{x} == Total(s.m) && (Total(s.m)[x] == 1 ==> x !in Total(m))
  {
    hide Total, Grown, Region, SoundAt;
    var objects := Without(s.m[p], x);
    WithoutOne(s.m[p], x);
    LosingSound(s.m, s.ages, p, objects);
    TotalSet(s.m, p, objects);
    ThinCancel(Total(s.m[p := objects]), multiset(s.m[p]), Total(s.m), multiset(objects), multiset{x});
    ThinnedPlaced(s, p, objects, boxes, exempt);
  }

  lemma PlacedAgain(boxes: Boxes, world: BoundingBox, m: map<Path, seq<GameObject>>, o: GameObject,
                    exempt: set<GameObject>, exempt': set<GameObject>)
    requires Placed(boxes, world, m, exempt) && exempt - {o} <= exempt' && o !in Total(m)
    ensures Placed(boxes, world, m, exempt')
  {
    hide Total, Region;
    NowhereIn(m, o);
    forall q <- m.Keys | q != Top ensures PlacedAt(boxes, world, q, m[q], exempt') {
      assert PlacedAt(boxes, world, q, m[q], exempt);
    }
  }

  lemma PlacedMore(boxes: Boxes, world: BoundingBox, m: map<Path, seq<GameObject>>, exempt: set<GameObject>,
                   exempt': set<GameObject>)
    requires Placed(boxes, world, m, exempt) && exempt <= exempt'
    ensures Placed(boxes, world, m, exempt')
  {
    hide Region;
    forall q <- m.Keys | q != Top ensures PlacedAt(boxes, world, q, m[q], exempt') {
      assert PlacedAt(boxes, world, q, m[q], exempt);
    }
  }

  /** Where a moved object may end up. */
  lemma StartHome(world: BoundingBox, m: map<Path, seq<GameObject>>, p: Path, box: BoundingBox)
    requires Grown(world, m.Keys) && p in m
    ensures Start(world, p, box) in m
    ensures var home := Home(world, m, Start(world, p, box), box);
      && (home.Some? ==> home.value == Top || box.IsPoint() || Region(world, home.value).Contains(box))
      && (Region(world, p).Contains(box) ==> home.Some? && Below(p, home.value))
  {
    hide Region, Small;
    var c := Start(world, p, box);
    GrownAbove(world, m.Keys, c, p);
    if Home(world, m, c, box).Some? {
      HomeContains(world, m, c, box);
    }
    if Region(world, p).Contains(box) {
      assert c == p;
      HomeFits(world, m, p, box);
      DescendRests(world, m, p, box);
    }
  }

  /** The object inserted where it belongs now: it needs no exemption any more. */
  lemma MoveIn(s: State, s': State, p: Path, x: GameObject, boxes: Boxes, exempt: set<GameObject>,
               exempt': set<GameObject>)
    requires Fine(s, boxes, exempt) && p in s.m && p in s.ages && x in s.m[p] && s.ages[p].lifespan == -1
    requires Relocated(s, s', p, x, BoxOf(boxes, x))
    requires exempt - {x} <= exempt' && (Total(s.m)[x] == 1 || x in exempt')
    ensures Fine(s', boxes, exempt') && Total(s'.m) <= Total(s.m)
    ensures var home := Home(s.world, s.m[p := Without(s.m[p], x)], Start(s.world, p, BoxOf(boxes, x)),
                             BoxOf(boxes, x));
      var rejected := if home.Some? then multiset{} else multiset{x};
      Total(s'.m) + rejected == Total(s.m) && Rejected(s, boxes, rejected)
  {
    hide Total, Grown, Region, SoundAt, Home, Start, Placed, Put, BoxOf, Without;
    var box := BoxOf(boxes, x);
    var m := s.m[p := Without(s.m[p], x)];
    MoveOut(s, p, x, boxes, exempt);
    var c := Start(s.world, p, box);
    StartHome(s.world, m, p, box);
    InsertionKeeps(s.world, m, s.ages, c, x, box, s'.m, s'.ages);
    MoveGrown(s.world, m, c, box, x, s'.m);
    if Home(s.world, m, c, box).Some? {
      PlacedPut(boxes, s.world, m, Home(s.world, m, c, box).value, x, exempt);
      PlacedMore(boxes, s.world, s'.m, if x in exempt' then exempt else exempt - {x}, exempt');
    } else if x in exempt' {
      PlacedMore(boxes, s.world, m, exempt, exempt');
    } else {
      PlacedAgain(boxes, s.world, m, x, exempt, exempt');
    }
  }

  lemma MoveGrown(world: BoundingBox, m: map<Path, seq<GameObject>>, c: Path, box: BoundingBox, x: GameObject,
                  m': map<Path, seq<GameObject>>)
    requires Grown(world, m.Keys) && c in m
    requires var home := Home(world, m, c, box); m' == if home.Some? then Put(m, home.value, x) else m
    ensures Grown(world, m'.Keys)
  {
    hide Region, Small, Home;
    if Home(world, m, c, box).Some? {
      var h := Home(world, m, c, box).value;
      HomeShape(world, m, c, box);
      assert m'.Keys == m.Keys + {h};
    }
  }

  /** Relocating one object touches, outside the subtree, at most the place the object goes to. */
  lemma MoveGrew(s: State, s': State, p: Path, x: GameObject, box: BoundingBox, soiled: set<GameObject>)
    requires Grown(s.world, s.m.Keys) && p in s.m && x in s.m[p] && Relocated(s, s', p, x, box)
    requires x !in soiled && Tidy(s.m, p, soiled)
    ensures Grew(s.m, s'.m, p, soiled) && Tidy(s'.m, p, soiled)
    ensures Region(s.world, p).Contains(box) ==> Outside(s'.m, p) == Outside(s.m, p)
  {
    hide Region, Home, Start, Without, Grown, Small, Climb, Grew, Tidy, Outside, Put;
    var m := s.m[p := Without(s.m[p], x)];
    var home := Home(s.world, m, Start(s.world, p, box), box);
    WithoutOne(s.m[p], x);
    ThinGrew(s.m, p, Without(s.m[p], x), soiled);
    StartHome(s.world, m, p, box);
    if home.Some? {
      PutGrew(m, home.value, x, p, soiled);
      GrewTrans(s.m, m, s'.m, p, soiled, soiled);
    }
  }

  /** Taking objects out of `p` is not noticed outside. */
  lemma ThinGrew(m: map<Path, seq<GameObject>>, p: Path, objects: seq<GameObject>, soiled: set<GameObject>)
    requires p in m && Tidy(m, p, soiled) && forall o <- objects :: o in m[p]
    ensures var m' := m[p := objects];
      m'.Keys == m.Keys && Outside(m', p) == Outside(m, p) && Tidy(m', p, soiled) && Grew(m, m', p, soiled)
  {
    assert Below(p, p);
    var m' := m[p := objects];
    assert Outside(m', p) == Outside(m, p);
    GrewSame(m, m', p, soiled);
  }

  lemma PutGrew(m: map<Path, seq<GameObject>>, h: Path, x: GameObject, p: Path, soiled: set<GameObject>)
    requires x !in soiled && Tidy(m, p, soiled)
    ensures Grew(m, Put(m, h, x), p, soiled) && Tidy(Put(m, h, x), p, soiled)
    ensures Below(p, h) ==> Outside(Put(m, h, x), p) == Outside(m, p)
  {
    var m' := Put(m, h, x);
    hide Below;
    assert m'.Keys == m.Keys + {h};
    forall q <- m.Keys
      ensures m[q] <= m'[q] && Spotless(m'[q][|m[q]|..], soiled) && (Spotless(m[q], soiled) ==> Spotless(m'[q], soiled))
    {
      PutSpotless(m, h, x, q, soiled);
    }
    forall q <- m'.Keys | q !in m ensures Spotless(m'[q], soiled) { PutSpotless(m, h, x, q, soiled); }
    if Below(p, h) { PutOutside(m, h, x, p); }
    hide Spotless, Put, Outside;
  }

  lemma PutOutside(m: map<Path, seq<GameObject>>, h: Path, x: GameObject, p: Path)
    requires Below(p, h)
    ensures Outside(Put(m, h, x), p) == Outside(m, p)
  {
    hide Below;
  }

  lemma PutSpotless(m: map<Path, seq<GameObject>>, h: Path, x: GameObject, q: Path, soiled: set<GameObject>)
    requires x !in soiled && q in Put(m, h, x)
    ensures var m' := Put(m, h, x);
      && (q in m ==>
            && m[q] <= m'[q] && Spotless(m'[q][|m[q]|..], soiled)
            && (Spotless(m[q], soiled) ==> Spotless(m'[q], soiled)))
      && (q !in m ==> Spotless(m'[q], soiled))
  {
    if q in m && q == h { assert Put(m, h, x)[q][|m[q]|..] == [x]; }
  }

  lemma MoveAges(s: State, s1: State, s2: State, p: Path, x: GameObject, box: BoundingBox)
    requires AgesOutside(s.ages, s1.ages, p) && p in s1.m && p in s1.ages && s1.m.Keys == s1.ages.Keys
    requires Relocated(s1, s2, p, x, box)
    ensures AgesOutside(s.ages, s2.ages, p) && p in s2.ages && p in s2.m && s2.ages[p] == s1.ages[p]
    ensures forall o <- s1.m[p] :: o == x || o in s2.m[p]
  {
    hide Home, Start, Without;
    if x in s1.m[p] { WithoutOne(s1.m[p], x); } else { WithoutNone(s1.m[p], x); }
  }

  lemma MovingStart(s: State, p: Path, v: View, others: set<GameObject>, moved: seq<GameObject>, inside: bool)
    requires Fine(s, v.boxes, others + Elements(moved)) && OnceBut(Total(s.m), others) && p in s.m && p in s.ages
    requires moved != [] ==> s.ages[p].lifespan == -1
    requires Tidy(s.m, p, v.Soiled()) && Distinct(moved) && (forall o <- moved :: o in s.m[p])
    requires inside ==> forall o <- moved :: Region(s.world, p).Contains(BoxOf(v.boxes, o))
    ensures Moving(s, s, p, v, others, moved, Elements(moved), inside, multiset{})
  {
    hide Fine, Total, Region, Stays;
    StaysSelf(s);
    StaysTrans(s, s, s, {}, {}, Elements(moved));
    assert forall q <- s.m.Keys :: s.m[q][|s.m[q]|..] == [];
  }

  lemma MovingNext(s: State, s1: State, p: Path, v: View, others: set<GameObject>, x: GameObject,
                   rest: seq<GameObject>, all: set<GameObject>, inside: bool, r1: multiset<GameObject>)
    requires Moving(s, s1, p, v, others, [x] + rest, all, inside, r1)
    ensures p in s1.m && x in s1.m[p] && x in v.boxes && x !in v.Soiled()
  {
    hide Total, Outside, Grew, OnceBut, Placed, Sound, Grown, Stays, Landed;
    assert ([x] + rest)[0] == x && x in [x] + rest;
    assert Below(p, p) && Spotless(s1.m[p], v.Soiled());
    TotalHas(s1.m, p, x);
  }

  lemma MoveOnce(s1: State, s2: State, p: Path, v: View, exempt: set<GameObject>, exempt': set<GameObject>,
                 x: GameObject)
    returns (r2: multiset<GameObject>)
    requires Fine(s1, v.boxes, exempt) && p in s1.m && p in s1.ages && x in s1.m[p] && s1.ages[p].lifespan == -1
    requires Relocated(s1, s2, p, x, BoxOf(v.boxes, x)) && (Total(s1.m)[x] == 1 || x in exempt')
    requires x !in v.Soiled() && Tidy(s1.m, p, v.Soiled()) && exempt - {x} <= exempt'
    ensures Fine(s2, v.boxes, exempt') && s2.world == s1.world
    ensures Grew(s1.m, s2.m, p, v.Soiled()) && Tidy(s2.m, p, v.Soiled())
    ensures Total(s2.m) + r2 == Total(s1.m) && Rejected(s1, v.boxes, r2) && r2 <= multiset{x}
    ensures Region(s1.world, p).Contains(BoxOf(v.boxes, x)) ==> r2 == multiset{} && Outside(s2.m, p) == Outside(s1.m, p)
  {
    hide Fine, Total, Region, Outside, Relocated, BoxOf, Grew, Home, Start, Tidy, Put;
    var box := BoxOf(v.boxes, x);
    var m := s1.m[p := Without(s1.m[p], x)];
    var home := Home(s1.world, m, Start(s1.world, p, box), box);
    r2 := if home.Some? then multiset{} else multiset{x};
    MovingFine(s1, v.boxes, exempt, p);
    MoveIn(s1, s2, p, x, v.boxes, exempt, exempt');
    MoveGrew(s1, s2, p, x, box, v.Soiled());
    assert m.Keys == s1.m.Keys;
    StartHome(s1.world, m, p, box);
    RelocatedWorld(s1, s2, p, x, box);
  }

  lemma MovingStep(s: State, s1: State, s2: State, p: Path, v: View, others: set<GameObject>, x: GameObject,
                   rest: seq<GameObject>, all: set<GameObject>, inside: bool, r1: multiset<GameObject>)
    returns (r2: multiset<GameObject>)
    requires Moving(s, s1, p, v, others, [x] + rest, all, inside, r1)
    requires p in s1.m && Relocated(s1, s2, p, x, BoxOf(v.boxes, x))
    ensures Moving(s, s2, p, v, others, rest, all, inside, r1 + r2)
  {
    hide Fine, Total, Region, Outside, Relocated, BoxOf, Grew, AgesOutside, Rejected, Stays, Tidy, Spotless, Landed;
    MovingNext(s, s1, p, v, others, x, rest, all, inside, r1);
    assert Total(s1.m)[x] == 1 || x in others by { TotalHas(s1.m, p, x); }
    MovingRest(x, rest, others);
    assert Elements(rest) <= all && x in all by { assert x in [x] + rest && x in Elements([x] + rest); }
    hide Distinct, Elements;
    MovingFine(s1, v.boxes, others + Elements([x] + rest), p);
    MoveLanded(s, s1, s2, p, x, v.boxes, all);
    r2 := MoveOnce(s1, s2, p, v, others + Elements([x] + rest), others + Elements(rest), x);
    MoveAges(s, s1, s2, p, x, BoxOf(v.boxes, x));
    GrewTrans(s.m, s1.m, s2.m, p, v.Soiled(), v.Soiled());
    StaysMove(s1, s2, p, x, BoxOf(v.boxes, x));
    StaysTrans(s, s1, s2, all, {x}, all);
    OnceLess(Total(s2.m), Total(s1.m), others);
    MovingCount(Total(s2.m), r2, Total(s1.m), r1, Total(s.m));
    RejectedBoth(s, s1, v.boxes, r1, r2);
    AmongBoth(r1, r2, all);
  }

  /** Outside the subtree only an object arrives that left the region of its node. */
  lemma MoveLanded(s: State, s1: State, s2: State, p: Path, x: GameObject, boxes: Boxes, all: set<GameObject>)
    requires s1.world == s.world && Landed(s, s1, p, boxes, all) && x in all
    requires p in s1.m && Grown(s1.world, s1.m.Keys) && Relocated(s1, s2, p, x, BoxOf(boxes, x))
    ensures Landed(s, s2, p, boxes, all)
  {
    hide Region, Home, Start, Without, Grown, BoxOf;
    var m := s1.m[p := Without(s1.m[p], x)];
    assert m.Keys == s1.m.Keys;
    StartHome(s1.world, m, p, BoxOf(boxes, x));
    BelowRefl(p);
  }

  lemma StaysMove(s: State, s': State, p: Path, x: GameObject, box: BoundingBox)
    requires p in s.m && p in s.ages && s.m.Keys == s.ages.Keys && Relocated(s, s', p, x, box)
    ensures Stays(s, s', {x})
  {
    hide Home, Start, Without;
    if x in s.m[p] { WithoutOne(s.m[p], x); } else { WithoutNone(s.m[p], x); }
    var m := s.m[p := Without(s.m[p], x)];
    forall q <- s.m.Keys ensures q in s'.m && m[q] <= s'.m[q] && s'.ages[q] == s.ages[q] {}
    forall q <- s.m.Keys | q in s.ages && s.ages[q].built ensures StaysAt(s, s', {x}, q) {
      assert forall o <- s.m[q] :: o == x || o in m[q];
    }
  }

  lemma RejectedBoth(s: State, s1: State, boxes: Boxes, r1: multiset<GameObject>, r2: multiset<GameObject>)
    requires s1.world == s.world && Rejected(s, boxes, r1) && Rejected(s1, boxes, r2)
    ensures Rejected(s, boxes, r1 + r2)
  {}

  lemma MovingFine(s: State, boxes: Boxes, exempt: set<GameObject>, p: Path)
    requires Fine(s, boxes, exempt) && p in s.m
    ensures Grown(s.world, s.m.Keys) && s.m.Keys == s.ages.Keys
  {
    hide Total, Placed, SoundAt, Grown;
  }

  lemma MovingRest(x: GameObject, rest: seq<GameObject>, others: set<GameObject>)
    requires Distinct([x] + rest)
    ensures Distinct(rest) && x !in rest
    ensures forall o <- rest :: o in [x] + rest
    ensures others + Elements([x] + rest) - {x} <= others + Elements(rest)
  {
    var all := [x] + rest;
    forall i, j | 0 <= i < j < |rest| ensures rest[i] != rest[j] { assert all[i + 1] != all[j + 1]; }
    forall i | 0 <= i < |rest| ensures rest[i] != x { assert all[0] != all[i + 1]; }
  }

  lemma RelocatedWorld(s: State, s': State, p: Path, x: GameObject, box: BoundingBox)
    requires p in s.m && Relocated(s, s', p, x, box)
    ensures s'.world == s.world
  {
    hide Home, Start, Without, Put;
  }

  lemma MovingCount<T>(t2: multiset<T>, r2: multiset<T>, t1: multiset<T>, r1: multiset<T>, t: multiset<T>)
    requires t2 + r2 == t1 && t1 + r1 == t
    ensures t2 + (r1 + r2) == t
  {
    calc { t2 + (r1 + r2); (t2 + r2) + r1; t; }
  }

  // ----- the steps together

  lemma PreparedOnce(s: State, s': State, p: Path, v: View, v': View, pending: set<GameObject>,
                     queue: seq<GameObject>, moved: seq<GameObject>, gone: multiset<GameObject>,
                     rejected: multiset<GameObject>, overwritten: multiset<GameObject>, but: set<GameObject>)
    requires Prepared(s, s', p, v, v', pending, queue, moved, gone, rejected, overwritten)
    requires OnceBut(Total(s.m) + multiset(queue), but)
    ensures OnceBut(Total(s'.m), but) && Fine(s', v.boxes, pending + Elements(moved) + v'.dirty)
    ensures p in s'.m && p in s'.ages && s'.ages[p].built && Spotless(s'.m[p], v'.Soiled())
    ensures v'.boxes == v.boxes
  {
    hide Fine, Calm, Outside, AgesOutside, Total, Rejected, Region, OnceBut;
    var all := Total(s.m) + multiset(queue);
    assert Total(s'.m) <= Total(s'.m) + gone + (rejected + overwritten);
    OnceLess(Total(s'.m), all, but);
  }

  lemma PartwayOnce(s: State, s': State, p: Path, v: View, v': View, pending: set<GameObject>, due: set<Corner>, n: nat,
                    gone: multiset<GameObject>, rejected: multiset<GameObject>, overwritten: multiset<GameObject>,
                    but: set<GameObject>)
    requires Partway(s, s', p, v, v', pending, due, n, gone, rejected, overwritten) && OnceBut(Total(s.m), but)
    ensures OnceBut(Total(s'.m), but) && Fine(s', v.boxes, pending + v'.dirty) && v'.boxes == v.boxes
    ensures p in s'.m && p in s'.ages && p in s.ages && s'.ages[p] == s.ages[p]
    ensures forall k <- due | n <= k :: Kid(p, k) in s'.m
  {
    hide Fine, Calm, Outside, AgesOutside, Total, Rejected, Region, OnceBut, Visited, Grew, Spotless;
    assert Total(s'.m) <= Total(s'.m) + gone + (rejected + overwritten);
    OnceLess(Total(s'.m), Total(s.m), but);
  }

  /** After the children the moved objects of `p` can be relocated. */
  lemma MovingAfter(s: State, s4: State, s5: State, p: Path, v: View, v4: View, v5: View, pending: set<GameObject>,
                    queue: seq<GameObject>, moved: seq<GameObject>, due: set<Corner>,
                    g1: multiset<GameObject>, r1: multiset<GameObject>, o1: multiset<GameObject>,
                    g2: multiset<GameObject>, r2: multiset<GameObject>, o2: multiset<GameObject>)
    requires OnceBut(Total(s.m) + multiset(queue), pending)
    requires Prepared(s, s4, p, v, v4, pending, queue, moved, g1, r1, o1)
    requires Partway(s4, s5, p, v4, v5, pending + Elements(moved), due, 8, g2, r2, o2)
    ensures Moving(s5, s5, p, v5, pending + v5.dirty, moved, Elements(moved), queue == []
                   && Calm(s, v.boxes, p, v.Movers()), multiset{})
  {
    hide Fine, Calm, Outside, AgesOutside, Total, Rejected, Region, OnceBut, Visited, Grew, Spotless, Tidy, BoxOf,
      Distinct;
    PreparedOnce(s, s4, p, v, v4, pending, queue, moved, g1, r1, o1, pending);
    PartwayOnce(s4, s5, p, v4, v5, pending + Elements(moved), due, 8, g2, r2, o2, pending);
    OnceWider(Total(s5.m), pending, pending + v5.dirty);
    PartwayEnd(s4, s5, p, v4, v5, pending + Elements(moved), due, 8, g2, r2, o2);
    assert pending + Elements(moved) + v5.dirty == pending + v5.dirty + Elements(moved);
    var inside := queue == [] && Calm(s, v.boxes, p, v.Movers());
    assert forall o <- moved :: o in s5.m[p];
    MovingStart(s5, p, v5, pending + v5.dirty, moved, inside);
  }

  lemma GrewSame(m: map<Path, seq<GameObject>>, m': map<Path, seq<GameObject>>, p: Path, soiled: set<GameObject>)
    requires Outside(m', p) == Outside(m, p)
    ensures Grew(m, m', p, soiled)
  {
    forall q <- m.Keys | !Below(p, q) ensures q in m' && m'[q] == m[q] && m'[q][|m[q]|..] == [] {
      assert q in Outside(m, p);
      assert q in Outside(m', p);
    }
    forall q <- m'.Keys | !Below(p, q) ensures q in m { assert q in Outside(m', p); }
  }

  lemma AddUpThree<T>(t: multiset<T>, q: multiset<T>, t1: multiset<T>, g1: multiset<T>, r1: multiset<T>,
                      o1: multiset<T>, t2: multiset<T>, g2: multiset<T>, r2: multiset<T>, o2: multiset<T>,
                      t3: multiset<T>, r3: multiset<T>)
    requires t1 + g1 + (r1 + o1) == t + q && t2 + g2 + (r2 + o2) == t1 && t3 + r3 == t2
    ensures t3 + (g1 + g2) + ((r1 + r2 + r3) + (o1 + o2)) == t + q
  {
    AddUp(t2, g2, r2, o2, t1, g1, r1, o1, t + q);
    calc {
      t3 + (g1 + g2) + ((r1 + r2 + r3) + (o1 + o2));
      (t3 + r3) + (g1 + g2) + ((r1 + r2) + (o1 + o2));
      t + q;
    }
  }

  lemma AgesTrans(a: map<Path, Age>, b: map<Path, Age>, c: map<Path, Age>, p: Path)
    requires AgesOutside(a, b, p) && AgesOutside(b, c, p)
    ensures AgesOutside(a, c, p)
  {}

  lemma TicksRisk(s: State, s4: State, s5: State, s6: State, p: Path, v: View, v4: View, v5: View,
                  pending: set<GameObject>, queue: seq<GameObject>, moved: seq<GameObject>, due: set<Corner>,
                  g1: multiset<GameObject>, r1: multiset<GameObject>, o1: multiset<GameObject>,
                  g2: multiset<GameObject>, r2: multiset<GameObject>, o2: multiset<GameObject>,
                  r3: multiset<GameObject>)
    requires s.m.Keys == s.ages.Keys
    requires Prepared(s, s4, p, v, v4, pending, queue, moved, g1, r1, o1)
    requires Partway(s4, s5, p, v4, v5, pending + Elements(moved), due, 8, g2, r2, o2)
    requires Moving(s5, s6, p, v5, pending + v5.dirty, [], Elements(moved), queue == []
                    && Calm(s, v.boxes, p, v.Movers()), r3)
    ensures queue == [] ==>
      Flows(s, s6, p, v.boxes, v.Movers(), v5.Movers()) && forall o <- r1 + r2 + r3 :: o in v.Movers()
    ensures Tame(s, v.boxes, p, v.Movers(), queue, o1 + o2)
    ensures v.Movers() == {} ==> Outside(s6.m, p) == Outside(s.m, p) && AllBuilt(s6, p)
  {
    hide Fine, Calm, Outside, AgesOutside, Total, Rejected, Region, OnceBut, Visited, Grew, Spotless, Tidy, BoxOf,
      Distinct;
    hide Stays, Flows, Tame, Drifts, Landed, Leavers, Risk, AllBuilt, BuiltSoFar;
    MovingFine(s5, v.boxes, pending + Elements(moved) + v5.dirty, p);
    assert Total(s4.m) <= Total(s4.m) + g1 + (r1 + o1);
    TameLess(s, p, v.Movers(), queue, s4, p, v4.Movers(), v.boxes, o2);
    TameSum(s, p, v.Movers(), queue, v.boxes, o1, o2);
    if queue == [] {
      FlowsBy(s, s4, s5, s6, p, due, v.boxes, v.Movers(), v4.Movers(), v5.Movers(), Elements(moved));
      AmongBoth(r1, r2, v.Movers());
      AmongBoth(r1 + r2, r3, v.Movers());
    }
    if v.Movers() == {} {
      BuiltEnd(s5, p, due);
    }
  }

  /** The four steps of `Update` amount to a tick. */
  lemma TicksBy(s: State, s4: State, s5: State, s6: State, p: Path, v: View, v4: View, v5: View,
                pending: set<GameObject>, queue: seq<GameObject>, moved: seq<GameObject>, due: set<Corner>,
                g1: multiset<GameObject>, r1: multiset<GameObject>, o1: multiset<GameObject>, g2: multiset<GameObject>,
                r2: multiset<GameObject>, o2: multiset<GameObject>, r3: multiset<GameObject>)
    requires s.m.Keys == s.ages.Keys
    requires Prepared(s, s4, p, v, v4, pending, queue, moved, g1, r1, o1)
    requires Partway(s4, s5, p, v4, v5, pending + Elements(moved), due, 8, g2, r2, o2)
    requires Moving(s5, s6, p, v5, pending + v5.dirty, [], Elements(moved), queue == []
                    && Calm(s, v.boxes, p, v.Movers()), r3)
    ensures Ticks(s, s6, p, v, v5, pending, queue, g1 + g2, r1 + r2 + r3, o1 + o2)
  {
    hide Fine, Calm, Outside, AgesOutside, Total, Rejected, Region, OnceBut, Visited, Grew, Spotless, Tidy, BoxOf,
      Distinct;
    hide Stays, Flows, Tame, Drifts, Landed, Leavers, Risk, AllBuilt, BuiltSoFar;
    TicksRisk(s, s4, s5, s6, p, v, v4, v5, pending, queue, moved, due, g1, r1, o1, g2, r2, o2, r3);
    StaysTrans(s, s4, s5, v.Soiled(), v4.Soiled(), v.Soiled());
    StaysTrans(s, s5, s6, v.Soiled(), Elements(moved), v.Soiled());
    assert pending + v5.dirty + Elements([]) == pending + v5.dirty;
    GrewSame(s.m, s4.m, p, v4.Soiled());
    GrewTrans(s.m, s4.m, s5.m, p, v4.Soiled(), v5.Soiled());
    GrewTrans(s.m, s5.m, s6.m, p, v5.Soiled(), v5.Soiled());
    AgesTrans(s.ages, s4.ages, s5.ages, p);
    AgesTrans(s.ages, s5.ages, s6.ages, p);
    RejectedBoth(s, s4, v.boxes, r1, r2);
    RejectedBoth(s, s5, v.boxes, r1 + r2, r3);
    AmongBoth(g1, g2, v.marked);
    AddUpThree(Total(s.m), multiset(queue), Total(s4.m), g1, r1, o1, Total(s5.m), g2, r2, o2, Total(s6.m), r3);
  }

  /** A flat object that moved ends up inside the region of its node exactly when it did not leave the region it was in,
      or that node still holds something else or children, and is not small. */
  lemma FlatStraysIff(s: State, s': State, p: Path, x: GameObject, box: BoundingBox)
    requires Grown(s.world, s.m.Keys) && p in s.m && Relocated(s, s', p, x, box) && box.IsPoint()
    ensures var m := s.m[p := Without(s.m[p], x)];
      var home := Home(s.world, m, p, box);
      && s'.m == (if home.Some? then Put(m, home.value, x) else m)
      && (home.Some? ==>
            (Region(s.world, home.value).Contains(box) <==>
             Region(s.world, p).Contains(box) || !(Vacant(m, p) || Small(Region(s.world, p)))))
  {
    hide Region, Small, Vacant, Without, Put;
    var m := s.m[p := Without(s.m[p], x)];
    assert m.Keys == s.m.Keys;
    if Home(s.world, m, p, box).Some? { HomeContains(s.world, m, p, box); }
  }

  // ----- what a tick keeps

  /** After the tick of the top nothing stored is dirty any more, so no object is exempt from its place. */
  lemma TickedPlaced(s: State, boxes: Boxes, dirty: set<GameObject>, soiled: set<GameObject>)
    requires Placed(boxes, s.world, s.m, dirty) && Tidy(s.m, Top, soiled) && dirty <= soiled
    ensures forall q <- s.m.Keys :: forall o <- s.m[q] :: o !in soiled
    ensures Placed(boxes, s.world, s.m, {})
  {
    hide Region;
    BelowTops(s.m);
    forall q <- s.m.Keys | q != Top ensures PlacedAt(boxes, s.world, q, s.m[q], {}) {
      assert PlacedAt(boxes, s.world, q, s.m[q], dirty);
    }
  }

  /** In a calm subtree nothing is overwritten or rejected, whatever is at risk. */
  lemma CalmTickExact(s: State, s': State, v: View, v': View, gone: multiset<GameObject>,
                      rejected: multiset<GameObject>, overwritten: multiset<GameObject>)
    requires Ticks(s, s', Top, v, v', {}, [], gone, rejected, overwritten) && Calm(s, v.boxes, Top, v.Movers())
    ensures Selects(Total(s.m), v.boxes.Keys - v.marked, Total(s'.m))
  {
    hide Total, Calm, Grew, Placed, Sound, AgesOutside, Rejected, Stays, Grown, Outside, Risk, Tame, Flows, AllBuilt;
    TickSelects(s, s', v, v', gone, rejected, overwritten);
    assert Total(s'.m) + multiset{} == Total(s'.m);
  }

  /** With fewer than three objects at risk a tick keeps exactly what is not marked; rejected is only what moved out of
      the world. */
  lemma TameTickExact(s: State, s': State, v: View, v': View, gone: multiset<GameObject>,
                      rejected: multiset<GameObject>, overwritten: multiset<GameObject>)
    requires Ticks(s, s', Top, v, v', {}, [], gone, rejected, overwritten)
    requires Fine(s, v.boxes, v.dirty) && Once(Total(s.m)) && |Risk(s, v.boxes, Top, v.Movers())| < 3
    ensures overwritten == multiset{}
    ensures Selects(Total(s.m), v.boxes.Keys - v.marked, Total(s'.m) + rejected)
    ensures forall o <- rejected :: o in v.Movers() && !s.world.Contains(BoxOf(v.boxes, o))
  {
    hide Total, Calm, Grew, Placed, Sound, AgesOutside, Stays, Grown, Outside, Risk, Once, Flows, AllBuilt;
    assert Total(s.m) + multiset([]) == Total(s.m);
    assert Risk(s, v.boxes, Top, v.Movers()) + Elements([]) == Risk(s, v.boxes, Top, v.Movers());
    forall o <- rejected ensures o in v.boxes { assert o in Total(s'.m) + gone + (rejected + overwritten); }
    TickSelects(s, s', v, v', gone, rejected, overwritten);
  }

  lemma TickSelects(s: State, s': State, v: View, v': View, gone: multiset<GameObject>, rejected: multiset<GameObject>,
                    overwritten: multiset<GameObject>)
    requires Ticks(s, s', Top, v, v', {}, [], gone, rejected, overwritten) && overwritten == multiset{}
    requires forall o <- rejected :: o in v.boxes
    ensures Selects(Total(s.m), v.boxes.Keys - v.marked, Total(s'.m) + rejected)
  {
    hide Total, Calm, Grew, Placed, Sound, AgesOutside, Rejected, Stays, Grown, Outside, Flows, Tame, AllBuilt;
    var kept := Total(s'.m) + rejected;
    assert Total(s.m) == kept + gone by {
      assert Total(s.m) + multiset([]) == Total(s.m);
      assert rejected + multiset{} == rejected;
    }
    forall o | o in kept ensures o in v.boxes && o !in v.marked {
      if o in Total(s'.m) {
        TotalFrom(s'.m, o);
        var q :| q in s'.m && o in s'.m[q];
        BelowTop(q);
      }
    }
  }

  /** The objects that moved out of the region of their node and are not marked. */
  ghost function Astray(s: State, boxes: Boxes, movers: set<GameObject>): set<GameObject>
  {
    set q, o | q in s.m && o in s.m[q] && o in movers && !Region(s.world, q).Contains(BoxOf(boxes, o)) :: o
  }

  /** In a fully built tree with an empty queue it takes three objects astray for one to be lost. */
  lemma BuiltTickExact(s: State, s': State, v: View, v': View, gone: multiset<GameObject>,
                       rejected: multiset<GameObject>, overwritten: multiset<GameObject>)
    requires Ticks(s, s', Top, v, v', {}, [], gone, rejected, overwritten)
    requires Fine(s, v.boxes, v.dirty) && Once(Total(s.m)) && AllBuilt(s, Top) && |Astray(s, v.boxes, v.Movers())| < 3
    ensures overwritten == multiset{}
    ensures Selects(Total(s.m), v.boxes.Keys - v.marked, Total(s'.m) + rejected)
    ensures forall o <- rejected :: o in v.Movers() && !s.world.Contains(BoxOf(v.boxes, o))
  {
    FineNode(s, v.boxes, v.dirty, Top);
    BuiltAstray(s, v.boxes, v.Movers());
    hide Ticks, Fine, Total, Once, Risk, AllBuilt, BoxOf, Astray;
    TameTickExact(s, s', v, v', gone, rejected, overwritten);
  }

  /** In a fully built tree these are the objects at risk. */
  lemma BuiltAstray(s: State, boxes: Boxes, movers: set<GameObject>)
    requires AllBuilt(s, Top) && s.m.Keys == s.ages.Keys
    ensures Risk(s, boxes, Top, movers) == Astray(s, boxes, movers)
  {
    hide Region, BoxOf;
    BelowTops(s.m);
  }

  /** In a fully built tree with an empty queue nothing is lost but what moved or was marked. */
  lemma OnlySoiledLost(s: State, s': State, v: View, v': View, gone: multiset<GameObject>,
                       rejected: multiset<GameObject>, overwritten: multiset<GameObject>)
    requires Ticks(s, s', Top, v, v', {}, [], gone, rejected, overwritten)
    requires Fine(s, v.boxes, v.dirty) && Once(Total(s.m)) && AllBuilt(s, Top)
    ensures forall o <- gone + rejected + overwritten :: o in v.Soiled()
  {
    FineNode(s, v.boxes, v.dirty, Top);
    hide Total, Fine, Calm, Grew, AgesOutside, Outside, Flows, Tame;
    BelowTops(s.m);
    forall o <- gone + rejected + overwritten ensures o in v.Soiled() {
      assert Total(s.m) + multiset([]) == Total(s.m);
      assert (Total(s'.m) + gone + (rejected + overwritten))[o] == Total(s.m)[o];
      assert o in Total(s.m) && Total(s'.m)[o] == 0;
      TotalFrom(s.m, o);
      var q :| q in s.m && o in s.m[q];
      assert StaysAt(s, s', v.Soiled(), q);
      if o !in v.Soiled() { TotalHas(s'.m, q, o); }
    }
  }
}
