/** The ages of the nodes of a tree, and what every reachable node satisfies. */
module Aging {
  import opened Geometry
  import opened GameObjects
  import opened Places

  datatype Age = Age(lifespan: int, maxLifespan: int, built: bool, ready: bool, queued: bool)

  const NEW_AGE := Age(-1, 8, false, false, false)

  // ----- ages

  /** What every reachable node satisfies: a node whose lifespan runs has no children or still holds objects; only
      built nodes, under built parents, have run; objects queue at the top alone, and only while it is not ready. */
  ghost predicate SoundAt(m: map<Path, seq<GameObject>>, ages: map<Path, Age>, q: Path)
    requires q in m && q in ages
  {
    && (ages[q].lifespan != -1 ==> m[q] != [] || forall k: Corner :: Kid(q, k) !in m)
    && (!ages[q].built ==> ages[q].lifespan == -1 && (q.Kid? ==> ages[q] == NEW_AGE))
    && (ages[q].ready ==> ages[q].built && !ages[q].queued)
    && (q.Kid? ==> !ages[q].queued)
    && (q.Kid? && ages[q].built ==> q.up in ages && ages[q.up].built)
  }

  ghost predicate Sound(m: map<Path, seq<GameObject>>, ages: map<Path, Age>)
  {
    m.Keys == ages.Keys && forall q <- m.Keys :: SoundAt(m, ages, q)
  }

  /** Nothing under a node that was never updated has ever been updated. */
  lemma {:induction false} UnbuiltBelow(m: map<Path, seq<GameObject>>, ages: map<Path, Age>, p: Path, q: Path)
    requires Sound(m, ages) && p in m && q in m && Below(p, q) && !ages[p].built
    ensures !ages[q].built && ages[q].lifespan == -1
  {
    assert SoundAt(m, ages, q);
    if q != p && ages[q].built {
      UnbuiltBelow(m, ages, p, q.up);
    }
  }

  /** The lifespan rules of `Update`, with the 8-bit wrap of the maximum: 8, 16, 32, 64, then -128, then 0. */
  function Int8(n: int): int
  {
    (n + 128) % 256 - 128
  }

  function NextAge(age: Age, empty: bool, leaf: bool): Age
  {
    if empty then
      if leaf then
        if age.lifespan == -1 then age.(lifespan := age.maxLifespan)
        else if age.lifespan > 0 then age.(lifespan := age.lifespan - 1)
        else age
      else age
    else if age.lifespan != -1 then
      age.(lifespan := -1, maxLifespan := if age.maxLifespan <= 64 then Int8(age.maxLifespan * 2) else age.maxLifespan)
    else age
  }

  /** The ages of a node that stays empty and childless for `n` ticks. */
  function Deserted(age: Age, n: nat): Age
  {
    if n == 0 then age else NextAge(Deserted(age, n - 1), true, true)
  }

  lemma {:induction false} DesertedCounts(age: Age, n: nat)
    requires age.lifespan == -1
    ensures Deserted(age, n + 1).maxLifespan == age.maxLifespan
    ensures Deserted(age, n + 1).lifespan ==
      if age.maxLifespan >= 0 then (if n <= age.maxLifespan then age.maxLifespan - n else 0) else age.maxLifespan
  {
    if n > 0 { DesertedCounts(age, n - 1); }
  }

  /** A deserted node runs out of life exactly when its maximum did not wrap below zero, and then in tick
      `maxLifespan + 1`. */
  lemma DesertedExpires(age: Age)
    requires age.lifespan == -1 && age.maxLifespan != -1
    ensures (exists n: nat :: Deserted(age, n).lifespan == 0) <==> age.maxLifespan >= 0
    ensures age.maxLifespan >= 0 ==>
      Deserted(age, age.maxLifespan + 1).lifespan == 0
        && forall n: nat | n <= age.maxLifespan :: Deserted(age, n).lifespan != 0
  {
    forall n: nat ensures n > 0 ==> (Deserted(age, n).lifespan ==
      if age.maxLifespan >= 0 then (if n - 1 <= age.maxLifespan then age.maxLifespan - (n - 1) else 0)
        else age.maxLifespan)
    {
      if n > 0 { DesertedCounts(age, n - 1); }
    }
    assert age.maxLifespan >= 0 ==> Deserted(age, age.maxLifespan + 1).lifespan == 0;
  }

  /** The age of a new node after it was emptied and filled again `k` times. */
  function Refilled(k: nat): Age
  {
    if k == 0 then NEW_AGE else NextAge(NextAge(Refilled(k - 1), true, true), false, true)
  }

  lemma {:induction false} RefilledMaximum(k: nat)
    ensures Refilled(k).lifespan == -1
    ensures Refilled(k).maxLifespan == MaximumAfter(k)
  {
    if k > 0 {
      RefilledMaximum(k - 1);
      RefillDoubles(Refilled(k - 1));
      MaximumDoubles(k - 1);
      hide NextAge, Int8, MaximumAfter;
    }
  }

  lemma MaximumDoubles(k: nat)
    ensures MaximumAfter(k + 1) == if MaximumAfter(k) <= 64 then Int8(MaximumAfter(k) * 2) else MaximumAfter(k)
    ensures MaximumAfter(k) != -1
  {
    assert Int8(16) == 16 && Int8(32) == 32 && Int8(64) == 64 && Int8(128) == -128 && Int8(-256) == 0 && Int8(0) == 0;
  }

  function MaximumAfter(k: nat): int
  {
    match k
    case 0 => 8
    case 1 => 16
    case 2 => 32
    case 3 => 64
    case 4 => -128
    case _ => 0
  }

  lemma RefillDoubles(age: Age)
    requires age.lifespan == -1 && age.maxLifespan != -1
    ensures NextAge(NextAge(age, true, true), false, true) ==
      age.(maxLifespan := if age.maxLifespan <= 64 then Int8(age.maxLifespan * 2) else age.maxLifespan)
  {}

  /** The 8-bit maximum wraps: of all nodes, those that were refilled exactly four times never expire. */
  lemma OnlyFourRefillsLast(k: nat)
    ensures (exists n: nat :: Deserted(Refilled(k), n).lifespan == 0) <==> k != 4
  {
    RefilledMaximum(k);
    DesertedExpires(Refilled(k));
  }

  /** The aging step keeps what is reachable, and afterwards a node that holds objects does not run. */
  lemma AgingSound(m: map<Path, seq<GameObject>>, ages: map<Path, Age>, p: Path, leaf: bool)
    requires Sound(m, ages) && p in m && ages[p].built
    requires leaf <==> forall k: Corner :: Kid(p, k) !in m
    ensures Sound(m, ages[p := NextAge(ages[p], m[p] == [], leaf)])
    ensures m[p] != [] ==> NextAge(ages[p], m[p] == [], leaf).lifespan == -1
  {
    var ages' := ages[p := NextAge(ages[p], m[p] == [], leaf)];
    forall q <- m.Keys ensures SoundAt(m, ages', q) {
      assert SoundAt(m, ages, q);
    }
  }

  /** A node that does not run may lose objects. */
  lemma LosingSound(m: map<Path, seq<GameObject>>, ages: map<Path, Age>, p: Path, s: seq<GameObject>)
    requires Sound(m, ages) && p in m && ages[p].lifespan == -1
    ensures Sound(m[p := s], ages)
  {
    forall q <- m.Keys ensures SoundAt(m[p := s], ages, q) {
      assert SoundAt(m, ages, q);
    }
  }

  /** Inserting keeps it. */
  lemma PuttingSound(world: BoundingBox, m: map<Path, seq<GameObject>>, ages: map<Path, Age>,
                     m': map<Path, seq<GameObject>>, ages': map<Path, Age>, h: Path, o: GameObject)
    requires Sound(m, ages) && m' == Put(m, h, o) && ages'.Keys == m'.Keys
    requires h in m || (h.Kid? && h.up in m && !Vacant(m, h.up))
    requires forall q <- m.Keys :: ages'[q] == ages[q]
    requires h !in m ==> ages'[h] == NEW_AGE
    ensures Sound(m', ages')
  {
    forall q <- m'.Keys ensures SoundAt(m', ages', q) {
      if q in m {
        assert SoundAt(m, ages, q);
        if h !in m && q == h.up {
          assert Kid(q, h.corner) !in m;
        }
      }
    }
  }

  /** How the ages look after the node at `p` was built for the first time. */
  ghost predicate BuiltAges(ages: map<Path, Age>, ages': map<Path, Age>, p: Path)
    requires p in ages
  {
    && p in ages' && ages'[p] == ages[p].(built := true, ready := true, queued := false)
    && forall q <- ages'.Keys | q != p :: (q in ages && ages'[q] == ages[q]) || (Below(p, q) && ages'[q] == NEW_AGE)
  }

  lemma BuildingSoundAt(m: map<Path, seq<GameObject>>, ages: map<Path, Age>, p: Path,
                        m': map<Path, seq<GameObject>>, ages': map<Path, Age>, q: Path)
    requires Sound(m, ages) && p in m && !ages[p].built && q in m'
    requires p.Kid? ==> p.up in ages && ages[p.up].built
    requires ages'.Keys == m'.Keys && BuiltAges(ages, ages', p)
    requires Outside(m', p) == Outside(m, p)
    requires q.Kid? ==> q.up in m'
    ensures SoundAt(m', ages', q)
  {
    if q in m { assert SoundAt(m, ages, q); }
    if Below(p, q) {
      if q in m { UnbuiltBelow(m, ages, p, q); }
      if p.Kid? && q == p {
        assert p.up in ages';
        assert ages'[p.up] == ages[p.up] by { if Below(p, p.up) { BelowDeeper(p, p.up); } }
      }
    } else {
      OutsideKeys(m, p);
      OutsideKeys(m', p);
      assert q in Outside(m', p);
      assert q in m && m'[q] == m[q] && ages'[q] == ages[q];
      assert q.Kid? ==> !Below(p, q.up);
      if q.Kid? { assert q.up in Outside(m', p); }
      forall k: Corner ensures Kid(q, k) in m' ==> Kid(q, k) in m {
        if !Below(p, Kid(q, k)) && Kid(q, k) in m' {
          assert Kid(q, k) in Outside(m', p);
        }
      }
    }
  }

  /** Building a node for the first time keeps it. */
  lemma BuildingSound(m: map<Path, seq<GameObject>>, ages: map<Path, Age>, p: Path,
                      m': map<Path, seq<GameObject>>, ages': map<Path, Age>)
    requires Sound(m, ages) && p in m && !ages[p].built
    requires p.Kid? ==> p.up in ages && ages[p.up].built
    requires ages'.Keys == m'.Keys && BuiltAges(ages, ages', p)
    requires Outside(m', p) == Outside(m, p)
    requires forall q <- m'.Keys :: q.Kid? ==> q.up in m'
    ensures Sound(m', ages')
  {
    hide SoundAt, Outside, BuiltAges, Below;
    forall q <- m'.Keys ensures SoundAt(m', ages', q) {
      BuildingSoundAt(m, ages, p, m', ages', q);
    }
  }

  // ----- states of a tree

  datatype State = State(world: BoundingBox, m: map<Path, seq<GameObject>>, ages: map<Path, Age>)

  /** Outside the subtree at `p` the nodes keep their ages. */
  ghost predicate AgesOutside(ages: map<Path, Age>, ages': map<Path, Age>, p: Path)
  {
    forall q <- ages.Keys | !Below(p, q) :: q in ages' && ages'[q] == ages[q]
  }
}
