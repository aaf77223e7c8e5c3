/** Everything held by a family of sequences, counted with multiplicity. */
module Totals {

  ghost function Total<K, T>(m: map<K, seq<T>>): multiset<T>
  {
    if m == map[] then multiset{}
    else
      var k :| k in m;
      multiset(m[k]) + Total(m - {k})
  }

  /** Any key may be taken out first. */
  lemma {:induction false} TotalWithout<K, T>(m: map<K, seq<T>>, key: K)
    requires key in m
    ensures Total(m) == multiset(m[key]) + Total(m - {key})
    decreases |m|
  {
    var k :| k in m && Total(m) == multiset(m[k]) + Total(m - {k});
    hide Total;
    if k != key {
      TotalWithout(m - {k}, key);
      TotalWithout(m - {key}, k);
      assert m - {k} - {key} == m - {key} - {k};
    }
  }

  lemma TotalSet<K, T>(m: map<K, seq<T>>, key: K, s: seq<T>)
    ensures key in m ==> Total(m[key := s]) + multiset(m[key]) == Total(m) + multiset(s)
    ensures key !in m ==> Total(m[key := s]) == Total(m) + multiset(s)
  {
    TotalWithout(m[key := s], key);
    assert m[key := s] - {key} == m - {key};
    if key in m {
      TotalWithout(m, key);
    } else {
      assert m - {key} == m;
    }
  }

  lemma TotalSingle<K, T>(key: K, s: seq<T>)
    ensures Total(map[key := s]) == multiset(s)
  {
    TotalSet<K, T>(map[], key, s);
    assert map[][key := s] == map[key := s];
  }

  lemma UnionStep<K, V>(a: map<K, V>, b: map<K, V>, k: K)
    requires k in b && k !in a
    ensures a + b == (a + (b - {k}))[k := b[k]]
    ensures b == (b - {k})[k := b[k]]
  {}

  lemma UnionTotal<K, T>(a: map<K, seq<T>>, b: map<K, seq<T>>, k: K)
    requires k in b && k !in a
    requires Total(a + (b - {k})) == Total(a) + Total(b - {k})
    ensures Total(a + b) == Total(a) + Total(b)
  {
    UnionStep(a, b, k);
    TotalSet(a + (b - {k}), k, b[k]);
    TotalSet(b - {k}, k, b[k]);
  }

  lemma {:induction false} TotalUnion<K, T>(a: map<K, seq<T>>, b: map<K, seq<T>>)
    requires a.Keys !! b.Keys
    ensures Total(a + b) == Total(a) + Total(b)
    decreases |b|
  {
    if b == map[] {
      assert a + b == a;
    } else {
      var k :| k in b;
      TotalUnion(a, b - {k});
      UnionTotal(a, b, k);
    }
  }

  lemma {:induction false} TotalEmpty<K, T>(m: map<K, seq<T>>)
    requires forall k <- m.Keys :: m[k] == []
    ensures Total(m) == multiset{}
    decreases |m|
  {
    if m != map[] {
      var k :| k in m;
      TotalWithout(m, k);
      TotalEmpty(m - {k});
    }
  }

  lemma TotalHas<K, T>(m: map<K, seq<T>>, key: K, x: T)
    requires key in m && x in m[key]
    ensures x in Total(m)
  {
    TotalWithout(m, key);
    assert x in multiset(m[key]);
  }

  lemma {:induction false} TotalFrom<K, T>(m: map<K, seq<T>>, x: T)
    requires x in Total(m)
    ensures exists k <- m.Keys :: x in m[k]
    decreases |m|
  {
    var k :| k in m && Total(m) == multiset(m[k]) + Total(m - {k});
    if x !in m[k] {
      assert x !in multiset(m[k]);
      TotalFrom(m - {k}, x);
    }
  }

  /** `r` holds what `s` holds of the elements of `keep`, as often as `s` does, and nothing else. */
  ghost predicate Selects<T>(s: multiset<T>, keep: set<T>, r: multiset<T>)
  {
    && r <= s
    && forall x | x in s :: r[x] == if x in keep then s[x] else 0
  }

  lemma {:induction false} TotalSelects<K, T>(m: map<K, seq<T>>, keep: set<T>, n: map<K, seq<T>>)
    requires m.Keys == n.Keys
    requires forall k <- m.Keys :: Selects(multiset(m[k]), keep, multiset(n[k]))
    ensures Selects(Total(m), keep, Total(n))
    decreases |m|
  {
    if m == map[] {
      assert n == map[];
    } else {
      var k :| k in m;
      TotalSelects(m - {k}, keep, n - {k});
      TotalWithout(m, k);
      TotalWithout(n, k);
      SelectsSum(multiset(m[k]), Total(m - {k}), keep, multiset(n[k]), Total(n - {k}));
    }
  }

  lemma SelectsSum<T>(a: multiset<T>, b: multiset<T>, keep: set<T>, ra: multiset<T>, rb: multiset<T>)
    requires Selects(a, keep, ra) && Selects(b, keep, rb)
    ensures Selects(a + b, keep, ra + rb)
  {
    assert ra + rb <= a + b;
    forall x | x in a + b
      ensures (ra + rb)[x] == if x in keep then (a + b)[x] else 0
    {
      assert ra[x] == if x in keep then a[x] else 0;
      assert rb[x] == if x in keep then b[x] else 0;
    }
  }

  // ----- sharing a sequence out over numbered slots

  /** The elements whose slot is `k`, in their order. */
  function Pick<T>(s: seq<T>, slots: seq<nat>, k: nat): seq<T>
    requires |s| == |slots|
  {
    if s == [] then []
    else
      var n := |s| - 1;
      Pick(s[..n], slots[..n], k) + if slots[n] == k then [s[n]] else []
  }

  /** The elements whose slot is less than `n`, in their order. */
  function UpTo<T>(s: seq<T>, slots: seq<nat>, n: nat): seq<T>
    requires |s| == |slots|
  {
    if s == [] then []
    else
      var last := |s| - 1;
      UpTo(s[..last], slots[..last], n) + if slots[last] < n then [s[last]] else []
  }

  lemma {:induction false} PickFrom<T>(s: seq<T>, slots: seq<nat>, k: nat)
    requires |s| == |slots|
    ensures forall x <- Pick(s, slots, k) :: exists i :: 0 <= i < |s| && s[i] == x && slots[i] == k
    ensures forall i | 0 <= i < |s| && slots[i] == k :: s[i] in Pick(s, slots, k)
  {
    if s != [] {
      var n := |s| - 1;
      PickFrom(s[..n], slots[..n], k);
      forall x <- Pick(s[..n], slots[..n], k)
        ensures exists i :: 0 <= i < |s| && s[i] == x && slots[i] == k
      {
        var i :| 0 <= i < n && s[..n][i] == x && slots[..n][i] == k;
        assert s[i] == x && slots[i] == k;
      }
      forall i | 0 <= i < |s| && slots[i] == k
        ensures s[i] in Pick(s, slots, k)
      {
        if i < n {
          assert s[..n][i] == s[i] && slots[..n][i] == slots[i];
        }
      }
    }
  }

  /** Slot by slot, every element is given out once. */
  lemma {:induction false} SharedOut<T>(s: seq<T>, slots: seq<nat>, n: nat)
    requires |s| == |slots|
    ensures multiset(UpTo(s, slots, n + 1)) == multiset(UpTo(s, slots, n)) + multiset(Pick(s, slots, n))
  {
    if s != [] {
      var last := |s| - 1;
      SharedOut(s[..last], slots[..last], n);
    }
  }

  lemma {:induction false} SharedNone<T>(s: seq<T>, slots: seq<nat>)
    requires |s| == |slots|
    ensures UpTo(s, slots, 0) == []
  {
    if s != [] { SharedNone(s[..|s| - 1], slots[..|s| - 1]); }
  }

  lemma {:induction false} SharedAll<T>(s: seq<T>, slots: seq<nat>, n: nat)
    requires |s| == |slots|
    requires forall i | 0 <= i < |s| :: slots[i] < n
    ensures UpTo(s, slots, n) == s
  {
    if s != [] {
      SharedAll(s[..|s| - 1], slots[..|s| - 1], n);
      assert s == s[..|s| - 1] + [s[|s| - 1]];
    }
  }

  lemma {:induction false} PickAll<T>(s: seq<T>, slots: seq<nat>, k: nat)
    requires |s| == |slots|
    requires forall i | 0 <= i < |s| :: slots[i] == k
    ensures Pick(s, slots, k) == s
  {
    if s != [] {
      PickAll(s[..|s| - 1], slots[..|s| - 1], k);
      assert s == s[..|s| - 1] + [s[|s| - 1]];
    }
  }

  lemma {:induction false} PickConcat<T>(a: seq<T>, sa: seq<nat>, b: seq<T>, sb: seq<nat>, k: nat)
    requires |a| == |sa| && |b| == |sb|
    ensures Pick(a + b, sa + sb, k) == Pick(a, sa, k) + Pick(b, sb, k)
  {
    if b == [] {
      assert a + b == a && sa + sb == sa;
    } else {
      var n := |b| - 1;
      PickConcat(a, sa, b[..n], sb[..n], k);
      assert (a + b)[..|a| + n] == a + b[..n];
      assert (sa + sb)[..|a| + n] == sa + sb[..n];
    }
  }

  lemma PickNone<T>(s: seq<T>, slots: seq<nat>, k: nat)
    requires |s| == |slots|
    ensures Pick(s[..0], slots[..0], k) == []
  {}

  /** One element more. */
  lemma PickPush<T>(s: seq<T>, slots: seq<nat>, i: nat, k: nat)
    requires i < |s| == |slots|
    ensures Pick(s[..i + 1], slots[..i + 1], k) == Pick(s[..i], slots[..i], k) + if slots[i] == k then [s[i]] else []
  {
    assert s[..i + 1][..i] == s[..i] && slots[..i + 1][..i] == slots[..i];
  }

  /** Element `i` is not picked and all of those up to `cut` are. */
  lemma PickSuffix<T>(s: seq<T>, slots: seq<nat>, i: nat, cut: nat, k: nat)
    requires i < cut <= |s| == |slots| && slots[i] != k
    requires forall j | i < j < cut :: slots[j] == k
    ensures Pick(s[i..], slots[i..], k) == s[i + 1..cut] + Pick(s[cut..], slots[cut..], k)
  {
    PickAll(s[i + 1..cut], slots[i + 1..cut], k);
    assert Pick([s[i]], [slots[i]], k) == [] by { assert [s[i]][..0] == [] && [slots[i]][..0] == []; }
    assert s[i..] == ([s[i]] + s[i + 1..cut]) + s[cut..];
    assert slots[i..] == ([slots[i]] + slots[i + 1..cut]) + slots[cut..];
    PickConcat([s[i]] + s[i + 1..cut], [slots[i]] + slots[i + 1..cut], s[cut..], slots[cut..], k);
    PickConcat([s[i]], [slots[i]], s[i + 1..cut], slots[i + 1..cut], k);
  }

  /** Ascending, and exactly the positions whose slot is not `k`. */
  ghost predicate Rejects(removed: seq<nat>, slots: seq<nat>, k: nat)
  {
    && (forall i, j | 0 <= i < j < |removed| :: removed[i] < removed[j])
    && (forall i | 0 <= i < |removed| :: removed[i] < |slots| && slots[removed[i]] != k)
    && forall i | 0 <= i < |slots| && slots[i] != k :: i in removed
  }

  lemma RejectsPush(removed: seq<nat>, slots: seq<nat>, i: nat, k: nat)
    requires i < |slots| && Rejects(removed, slots[..i], k)
    ensures Rejects(if slots[i] == k then removed else removed + [i], slots[..i + 1], k)
  {
    var next := if slots[i] == k then removed else removed + [i];
    assert slots[..i + 1] == slots[..i] + [slots[i]];
    forall j | 0 <= j < i + 1 && slots[..i + 1][j] != k ensures j in next {
      if j < i {
        assert slots[..i][j] == slots[j];
      } else {
        assert next[|removed|] == i;
      }
    }
    forall j | 0 <= j < |next| ensures next[j] < i + 1 && slots[..i + 1][next[j]] != k {
      if j < |removed| { assert slots[..i][removed[j]] != k; }
    }
  }

  /** Erases the listed positions from the back, one at a time. */
  method EraseAt<T>(s: seq<T>, removed: seq<nat>, ghost slots: seq<nat>, ghost k: nat) returns (r: seq<T>)
    requires |s| == |slots| && Rejects(removed, slots, k)
    ensures r == Pick(s, slots, k)
  {
    hide Pick;
    r := s;
    var index := |removed|;
    ghost var cut := |s|;
    EraseNone(s, slots, k);
    while index > 0
      invariant 0 <= index <= |removed|
      invariant cut == if index == |removed| then |s| else removed[index]
      invariant r == s[..cut] + Pick(s[cut..], slots[cut..], k)
    {
      index := index - 1;
      var i := removed[index];
      EraseStep(s, removed, slots, k, index, cut);
      assert r[..i] == s[..i];
      assert r[i + 1..] == s[i + 1..cut] + Pick(s[cut..], slots[cut..], k);
      r := r[..i] + r[i + 1..];
      cut := i;
    }
    EraseDone(s, removed, slots, k, cut);
  }

  lemma EraseNone<T>(s: seq<T>, slots: seq<nat>, k: nat)
    requires |s| == |slots|
    ensures s == s[..|s|] + Pick(s[|s|..], slots[|s|..], k)
  {}

  lemma EraseStep<T>(s: seq<T>, removed: seq<nat>, slots: seq<nat>, k: nat, index: nat, cut: nat)
    requires |s| == |slots| && Rejects(removed, slots, k) && index < |removed|
    requires cut == if index + 1 == |removed| then |s| else removed[index + 1]
    ensures var i := removed[index];
      i < cut <= |s| && Pick(s[i..], slots[i..], k) == s[i + 1..cut] + Pick(s[cut..], slots[cut..], k)
  {
    var i := removed[index];
    forall j | i < j < cut ensures slots[j] == k {
      RejectsGap(removed, slots, k, index, j);
    }
    PickSuffix(s, slots, i, cut, k);
  }

  lemma EraseDone<T>(s: seq<T>, removed: seq<nat>, slots: seq<nat>, k: nat, cut: nat)
    requires |s| == |slots| && Rejects(removed, slots, k)
    requires cut == if removed == [] then |s| else removed[0]
    ensures cut <= |s| && s[..cut] + Pick(s[cut..], slots[cut..], k) == Pick(s, slots, k)
  {
    forall j | 0 <= j < cut ensures slots[j] == k {
      assert forall x | 0 <= x < |removed| :: removed[x] >= cut;
      assert j !in removed;
    }
    hide Rejects, Pick;
    PickAll(s[..cut], slots[..cut], k);
    PickConcat(s[..cut], slots[..cut], s[cut..], slots[cut..], k);
    assert s == s[..cut] + s[cut..] && slots == slots[..cut] + slots[cut..];
  }

  lemma RejectsGap(removed: seq<nat>, slots: seq<nat>, k: nat, index: nat, j: nat)
    requires Rejects(removed, slots, k) && index < |removed|
    requires removed[index] < j < if index + 1 == |removed| then |slots| else removed[index + 1]
    ensures slots[j] == k
  {
    assert forall x | 0 <= x < |removed| :: if x <= index then removed[x] <= removed[index]
      else removed[x] >= removed[index + 1];
    assert j !in removed;
  }
}
