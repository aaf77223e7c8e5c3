/** Sequences without duplicates, and erasing from them. */
module Sequences {

  ghost predicate Distinct<T>(s: seq<T>)
  {
    forall i, j | 0 <= i < j < |s| :: s[i] != s[j]
  }

  ghost function Elements<T>(s: seq<T>): set<T>
  {
    set x | x in s
  }

  /** The sequence without the first occurrence of `x`. */
  function Without<T(==)>(s: seq<T>, x: T): seq<T>
  {
    if s == [] then [] else if s[0] == x then s[1..] else [s[0]] + Without(s[1..], x)
  }

  lemma {:induction false} WithoutOne<T>(s: seq<T>, x: T)
    requires x in s
    ensures multiset(Without(s, x)) + multiset{x} == multiset(s)
    ensures forall y <- Without(s, x) :: y in s
    ensures forall y <- s :: y == x || y in Without(s, x)
  {
    assert s == [s[0]] + s[1..];
    if s[0] != x { WithoutOne(s[1..], x); }
  }

  lemma {:induction false} WithoutNone<T>(s: seq<T>, x: T)
    requires x !in s
    ensures Without(s, x) == s
  {
    if s != [] { WithoutNone(s[1..], x); }
  }

  lemma {:induction false} WithoutAt<T>(s: seq<T>, i: nat)
    requires i < |s| && s[i] !in s[..i]
    ensures Without(s, s[i]) == s[..i] + s[i + 1..]
  {
    if i > 0 {
      assert s[0] in s[..i];
      assert s[1..][..i - 1] == s[1..i];
      forall y <- s[1..i] ensures y in s[..i] {}
      WithoutAt(s[1..], i - 1);
    }
  }

  lemma {:induction false} DistinctWithout<T>(s: seq<T>, x: T)
    requires Distinct(s)
    ensures Distinct(Without(s, x)) && forall y :: y in Without(s, x) <==> y in s && y != x
  {
    if s != [] {
      assert s == [s[0]] + s[1..];
      assert s[0] !in s[1..];
      DistinctWithout(s[1..], x);
      if s[0] != x { DistinctCons(s[0], Without(s[1..], x)); }
    }
  }

  lemma DistinctCons<T>(x: T, s: seq<T>)
    requires Distinct(s) && x !in s
    ensures Distinct([x] + s)
  {
    var t := [x] + s;
    forall a, b | 0 <= a < b < |t| ensures t[a] != t[b] {
      assert t[b] == s[b - 1];
    }
  }

  lemma DistinctSnoc<T>(s: seq<T>, x: T)
    requires Distinct(s) && x !in s
    ensures Distinct(s + [x])
  {}

  lemma DistinctInit<T>(s: seq<T>)
    requires Distinct(s) && s != []
    ensures Distinct(s[..|s| - 1]) && s[|s| - 1] !in s[..|s| - 1]
    ensures forall x <- s :: x in s[..|s| - 1] || x == s[|s| - 1]
  {
    assert s == s[..|s| - 1] + [s[|s| - 1]];
  }

  /** Nothing is there twice. */
  ghost predicate OnceBut<T>(b: multiset<T>, but: set<T>)
  {
    forall x | x in b && x !in but :: b[x] == 1
  }

  lemma OnceLess<T>(a: multiset<T>, b: multiset<T>, but: set<T>)
    requires a <= b && OnceBut(b, but)
    ensures OnceBut(a, but)
  {}

  lemma OnceWider<T>(b: multiset<T>, but: set<T>, but': set<T>)
    requires OnceBut(b, but) && but <= but'
    ensures OnceBut(b, but')
  {}

  ghost predicate Once<T>(b: multiset<T>)
  {
    OnceBut(b, {})
  }
}
