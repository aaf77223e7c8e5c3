/** Exactly what taking its queue in makes of a node. */
module Settling {
  import opened Geometry
  import opened Options
  import opened GameObjects
  import opened Places
  import opened Totals
  import opened Building
  import opened Aging

  /** The objects inserted one after the other at the top, each where it then belongs. */
  ghost function QueueIn(boxes: Boxes, world: BoundingBox, m: map<Path, seq<GameObject>>,
                         queue: seq<GameObject>): map<Path, seq<GameObject>>
  {
    if queue == [] then m
    else
      var last := |queue| - 1;
      var n := QueueIn(boxes, world, m, queue[..last]);
      var home := Home(world, n, Top, BoxOf(boxes, queue[last]));
      if home.Some? then Put(n, home.value, queue[last]) else n
  }

  /** Those of them that belong nowhere. */
  ghost function QueueOut(boxes: Boxes, world: BoundingBox, m: map<Path, seq<GameObject>>,
                          queue: seq<GameObject>): multiset<GameObject>
  {
    if queue == [] then multiset{}
    else
      var last := |queue| - 1;
      var home := Home(world, QueueIn(boxes, world, m, queue[..last]), Top, BoxOf(boxes, queue[last]));
      QueueOut(boxes, world, m, queue[..last]) + if home.Some? then multiset{} else multiset{queue[last]}
  }

  /** The nodes that were there keep their age. */
  ghost function AgesFor(ages: map<Path, Age>, shape: set<Path>): map<Path, Age>
  {
    map q | q in shape :: if q in ages then ages[q] else NEW_AGE
  }

  /** The first update joins the queue to the objects and builds the node, a later one inserts the queue. */
  ghost function SettledAs(s: State, boxes: Boxes, p: Path, queue: seq<GameObject>): State
    requires p in s.m && p in s.ages
  {
    var m := if s.ages[p].built then QueueIn(boxes, s.world, s.m, queue)
             else Rebuilt(boxes, s.world, s.m[p := s.m[p] + queue], p);
    State(s.world, m, AgesFor(s.ages, m.Keys)[p := s.ages[p].(built := true, ready := true, queued := false)])
  }

  lemma QueueMore(boxes: Boxes, world: BoundingBox, m: map<Path, seq<GameObject>>, done: seq<GameObject>, o: GameObject)
    ensures var n := QueueIn(boxes, world, m, done);
      var home := Home(world, n, Top, BoxOf(boxes, o));
      && QueueIn(boxes, world, m, done + [o]) == (if home.Some? then Put(n, home.value, o) else n)
      && QueueOut(boxes, world, m, done + [o]) ==
        QueueOut(boxes, world, m, done) + if home.Some? then multiset{} else multiset{o}
  {
    hide Home, Put;
    assert (done + [o])[..|done|] == done && (done + [o])[|done|] == o;
  }

  lemma AgesTwice(ages: map<Path, Age>, shape: set<Path>, more: set<Path>)
    requires ages.Keys <= shape <= more
    ensures AgesFor(AgesFor(ages, shape), more) == AgesFor(ages, more)
  {}

  lemma AgesSame(ages: map<Path, Age>)
    ensures AgesFor(ages, ages.Keys) == ages
  {}

  /** The ages after building a node that was never updated: what hung under it was never updated either. */
  lemma BuiltAgesFor(m: map<Path, seq<GameObject>>, ages: map<Path, Age>, ages': map<Path, Age>, p: Path)
    requires Sound(m, ages) && p in m && !ages[p].built && BuiltAges(ages, ages', p)
    ensures ages' == AgesFor(ages, ages'.Keys)[p := ages[p].(built := true, ready := true, queued := false)]
  {
    hide SoundAt;
    forall q <- ages'.Keys | q != p && q in ages ensures ages'[q] == ages[q] {
      if Below(p, q) {
        UnbuiltBelow(m, ages, p, q);
        UnbuiltNew(m, ages, p, q);
      }
    }
  }

  lemma UnbuiltNew(m: map<Path, seq<GameObject>>, ages: map<Path, Age>, p: Path, q: Path)
    requires Sound(m, ages) && q in m && !ages[q].built && Below(p, q) && q != p
    ensures ages[q] == NEW_AGE
  {
    assert SoundAt(m, ages, q);
  }

  /** A built node that takes in nothing only has its flags set. */
  lemma SettledAlone(s: State, boxes: Boxes, p: Path)
    requires p in s.m && s.m.Keys == s.ages.Keys && s.ages[p].built
    ensures SettledAs(s, boxes, p, []) ==
      s.(ages := s.ages[p := s.ages[p].(built := true, ready := true, queued := false)])
  {
    assert QueueIn(boxes, s.world, s.m, []) == s.m;
    AgesSame(s.ages);
  }

  // ----- who is rejected

  /** The first object goes into a vacant top node, and no later node finds it vacant. */
  lemma {:induction false} QueueVacant(boxes: Boxes, world: BoundingBox, m: map<Path, seq<GameObject>>,
                                       queue: seq<GameObject>)
    ensures Vacant(QueueIn(boxes, world, m, queue), Top) <==> Vacant(m, Top) && queue == []
  {
    hide Climb, Descend, Small;
    if queue != [] {
      var last := |queue| - 1;
      QueueVacant(boxes, world, m, queue[..last]);
      var n := QueueIn(boxes, world, m, queue[..last]);
      VacantFilled(world, n, BoxOf(boxes, queue[last]), queue[last]);
    }
  }

  lemma VacantFilled(world: BoundingBox, m: map<Path, seq<GameObject>>, box: BoundingBox, o: GameObject)
    ensures var home := Home(world, m, Top, box); !Vacant(if home.Some? then Put(m, home.value, o) else m, Top)
  {
    hide Climb, Descend, Small;
    var home := Home(world, m, Top, box);
    if home.Some? && home.value != Top {
      var n := Put(m, home.value, o);
      assert Top in m ==> n[Top] == m[Top];
      forall k: Corner ensures Kid(Top, k) in m ==> Kid(Top, k) in n {}
    }
  }

  /** The queue without the object that goes into a vacant top node. */
  function Late(vacant: bool, queue: seq<GameObject>): seq<GameObject>
  {
    queue[if vacant && queue != [] then 1 else 0..]
  }

  lemma LateNext(vacant: bool, queue: seq<GameObject>)
    requires queue != []
    ensures var last := |queue| - 1;
      multiset(Late(vacant, queue)) == multiset(Late(vacant, queue[..last]))
        + if vacant && last == 0 then multiset{} else multiset{queue[last]}
  {
    var last := |queue| - 1;
    if vacant && last == 0 {
      assert Late(vacant, queue) == [] == Late(vacant, queue[..last]);
    } else {
      assert Late(vacant, queue) == Late(vacant, queue[..last]) + [queue[last]];
    }
  }

  /** Rejected is exactly what lies outside the world, but for the object that comes first to a vacant top node; a small
      world rejects nothing. */
  lemma {:induction false} QueueOutIs(boxes: Boxes, world: BoundingBox, m: map<Path, seq<GameObject>>,
                                      queue: seq<GameObject>, o: GameObject)
    requires world.Proper()
    ensures QueueOut(boxes, world, m, queue)[o] ==
      if Small(world) || world.Contains(BoxOf(boxes, o)) then 0 else multiset(Late(Vacant(m, Top), queue))[o]
  {
    hide Home, Small, Put, BoxOf, Vacant, QueueIn, Late;
    if queue == [] {
      assert Late(Vacant(m, Top), queue) == [] by { LateNone(Vacant(m, Top)); }
    } else {
      var last := |queue| - 1;
      QueueOutIs(boxes, world, m, queue[..last], o);
      QueueVacant(boxes, world, m, queue[..last]);
      LateNext(Vacant(m, Top), queue);
      HomeRejects(world, QueueIn(boxes, world, m, queue[..last]), Top, BoxOf(boxes, queue[last]));
      assert Region(world, Top) == world;
    }
  }

  lemma LateNone(vacant: bool)
    ensures Late(vacant, []) == []
  {}
}
