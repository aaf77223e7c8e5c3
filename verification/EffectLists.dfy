/** The effect slots of game/object.cpp: indexes 1 to 255, handed out, returned and handed out again. */
module EffectLists {
  import opened Options

  const MOST: nat := 255

  datatype Effects = Effects(byEffect: map<nat, nat>, open: seq<nat>, used: seq<nat>)

  datatype Op = Add(effect: nat) | Remove(effect: nat) | RemoveByIndex(index: nat)

  function Position(s: seq<nat>, x: nat): (at: nat)
    ensures at <= |s| && (at < |s| <==> x in s)
    ensures at < |s| ==> s[at] == x && x !in s[..at]
    ensures at == |s| ==> x !in s
  {
    if s == [] || s[0] == x then 0
    else
      assert forall y <- s :: y == s[0] || y in s[1..];
      1 + Position(s[1..], x)
  }

  /** The last element takes the place of the erased one. */
  function SwapOut(s: seq<nat>, at: nat): seq<nat>
    requires at < |s|
  {
    s[at := s[|s| - 1]][..|s| - 1]
  }

  /** `GetOpenIndex`; 0 when all indexes are in use. */
  function Opened(s: Effects): (Effects, nat)
  {
    if s.open == [] then
      if |s.used| < MOST then (s.(used := s.used + [|s.used| + 1]), |s.used| + 1) else (s, 0)
    else
      var last := |s.open| - 1;
      (s.(open := s.open[..last], used := s.used + [s.open[last]]), s.open[last])
  }

  function Added(s: Effects, effect: nat): (Effects, nat)
  {
    var o := Opened(s);
    (if o.1 == 0 then o.0 else o.0.(byEffect := o.0.byEffect[effect := o.1]), o.1)
  }

  /** An index goes from the used to the open ones. */
  function Released(s: Effects, index: nat): Effects
  {
    if index in s.used then s.(used := SwapOut(s.used, Position(s.used, index)), open := s.open + [index]) else s
  }

  function Removed(s: Effects, effect: nat): (Effects, nat)
  {
    if effect in s.byEffect then
      var index := s.byEffect[effect];
      (Released(s, index).(byEffect := s.byEffect - {effect}), index)
    else (s, 0)
  }

  function RemovedByIndex(s: Effects, index: nat): (Effects, bool)
  {
    if index in s.used then
      (Released(s, index).(byEffect := map e | e in s.byEffect && s.byEffect[e] != index :: s.byEffect[e]), true)
    else (s, false)
  }

  // ----- the invariant

  function Upto(n: nat): (s: seq<nat>)
    ensures |s| == n && forall i | 0 <= i < n :: s[i] == i + 1
  {
    seq(n, i => i + 1)
  }

  /** The used and the open indexes together are a permutation of 1..N with N at most 255; the effects have different
      indexes, all of them in use. */
  ghost predicate Whole(s: Effects)
  {
    var n := |s.used| + |s.open|;
    && n <= MOST
    && multiset(s.used) + multiset(s.open) == multiset(Upto(n))
    && (forall e <- s.byEffect.Keys :: s.byEffect[e] in s.used)
    && forall e <- s.byEffect.Keys, f <- s.byEffect.Keys | s.byEffect[e] == s.byEffect[f] :: e == f
  }

  lemma {:induction false} UptoCount(n: nat, x: nat)
    ensures multiset(Upto(n))[x] == if 1 <= x <= n then 1 else 0
  {
    if n > 0 {
      UptoCount(n - 1, x);
      assert Upto(n) == Upto(n - 1) + [n];
    }
  }

  /** Each index from 1 to N is used or open, and not both nor twice. */
  lemma WholeIndex(s: Effects, x: nat)
    requires Whole(s)
    ensures multiset(s.used)[x] + multiset(s.open)[x] == if 1 <= x <= |s.used| + |s.open| then 1 else 0
    ensures x in s.used || x in s.open <==> 1 <= x <= |s.used| + |s.open|
    ensures !(x in s.used && x in s.open)
  {
    UptoCount(|s.used| + |s.open|, x);
    assert (multiset(s.used) + multiset(s.open))[x] == multiset(s.used)[x] + multiset(s.open)[x];
  }

  lemma SwapOutKeeps(s: seq<nat>, at: nat)
    requires at < |s|
    ensures multiset(SwapOut(s, at)) + multiset{s[at]} == multiset(s)
    ensures |SwapOut(s, at)| == |s| - 1
  {
    var last := s[|s| - 1];
    assert s == s[..|s| - 1] + [last];
    assert s[at := last] == SwapOut(s, at) + [last];
    assert multiset(s[at := last]) + multiset{s[at]} == multiset(s) + multiset{last};
  }

  /** `Add` returns 0 exactly when 255 indexes are in use, and otherwise an index from 1 to 255 that nobody held. */
  lemma AddIs(s: Effects, effect: nat)
    requires Whole(s)
    ensures var r := Added(s, effect);
      && Whole(r.0)
      && (r.1 == 0 <==> |s.used| == MOST)
      && (r.1 == 0 ==> r.0 == s)
      && (r.1 != 0 ==> 1 <= r.1 <= MOST && r.1 !in s.used && multiset(r.0.used) == multiset(s.used) + multiset{r.1}
                       && r.0.byEffect == s.byEffect[effect := r.1])
  {
    if s.open == [] {
      AddNext(s, effect);
    } else {
      AddReused(s, effect);
    }
    hide Whole;
  }

  lemma AddNext(s: Effects, effect: nat)
    requires Whole(s) && s.open == []
    ensures var r := Added(s, effect);
      && Whole(r.0) && (r.1 == 0 <==> |s.used| == MOST) && (r.1 == 0 ==> r.0 == s)
      && (r.1 != 0 ==>
            && r.1 <= MOST && r.1 !in s.used && r.0.used == s.used + [r.1]
            && r.0.byEffect == s.byEffect[effect := r.1])
  {
    var r, n := Added(s, effect), |s.used|;
    if n < MOST {
      NextUpto(s);
      WholeIndex(s, n + 1);
      hide Upto;
      AddWhole(s, r.0, effect, n + 1);
    }
  }

  lemma NextUpto(s: Effects)
    requires Whole(s) && s.open == []
    ensures var n := |s.used|; multiset(s.used + [n + 1]) + multiset(s.open) == multiset(Upto(n + 1))
  {
    var n := |s.used|;
    assert Upto(n + 1) == Upto(n) + [n + 1];
    hide Upto;
    assert multiset(s.open) == multiset{};
  }

  lemma AddReused(s: Effects, effect: nat)
    requires Whole(s) && s.open != []
    ensures var r := Added(s, effect);
      && Whole(r.0) && |s.used| < MOST && 1 <= r.1 <= MOST
      && r.1 !in s.used && r.0.used == s.used + [r.1] && r.0.byEffect == s.byEffect[effect := r.1]
  {
    var r, last := Added(s, effect), |s.open| - 1;
    assert s.open == s.open[..last] + [r.1];
    WholeIndex(s, r.1);
    hide Upto;
    SumMoved(multiset(s.used), multiset(s.open[..last]), multiset{r.1});
    AddWhole(s, r.0, effect, r.1);
  }

  lemma SumMoved(a: multiset<nat>, b: multiset<nat>, c: multiset<nat>)
    ensures (a + c) + b == a + (b + c)
  {}

  lemma AddWhole(s: Effects, t: Effects, effect: nat, index: nat)
    requires Whole(s) && index !in s.used && index != 0
    requires t.used == s.used + [index] && t.byEffect == s.byEffect[effect := index]
    requires |t.used| + |t.open| <= MOST
    requires multiset(t.used) + multiset(t.open) == multiset(Upto(|t.used| + |t.open|))
    ensures Whole(t)
  {}

  lemma ReleaseIs(s: Effects, index: nat)
    requires Whole(s) && index in s.used
    ensures var t := Released(s, index);
      && index !in t.used && index in t.open && multiset(t.used) + multiset{index} == multiset(s.used)
      && |t.used| + |t.open| == |s.used| + |s.open|
      && multiset(t.used) + multiset(t.open) == multiset(Upto(|t.used| + |t.open|))
      && t.byEffect == s.byEffect
  {
    var at := Position(s.used, index);
    SwapOutKeeps(s.used, at);
    WholeIndex(s, index);
    var t := Released(s, index);
    assert multiset(t.open) == multiset(s.open) + multiset{index};
    SumMoved(multiset(t.used), multiset(s.open), multiset{index});
    assert (multiset(t.used) + multiset{index})[index] == multiset(t.used)[index] + 1;
  }

  /** `Remove` frees the index of the effect and returns it; 0 when the effect is not there. */
  lemma RemoveIs(s: Effects, effect: nat)
    requires Whole(s)
    ensures var r := Removed(s, effect);
      && Whole(r.0)
      && (effect in s.byEffect ==> r.1 == s.byEffect[effect] && r.1 in s.used && r.1 !in r.0.used && r.1 in r.0.open
                                   && r.0.byEffect == s.byEffect - {effect})
      && (effect !in s.byEffect ==> r.0 == s && r.1 == 0)
  {
    if effect in s.byEffect {
      var index := s.byEffect[effect];
      ReleaseIs(s, index);
      FreedWhole(s, Released(s, index), Removed(s, effect).0, index);
      hide Released, Whole;
    }
  }

  /** Without the effects that hold it, a released index leaves a whole state. */
  lemma FreedWhole(s: Effects, r: Effects, t: Effects, index: nat)
    requires Whole(s) && t.used == r.used && t.open == r.open && |r.used| + |r.open| == |s.used| + |s.open|
    requires multiset(r.used) + multiset{index} == multiset(s.used)
    requires multiset(r.used) + multiset(r.open) == multiset(Upto(|r.used| + |r.open|))
    requires forall e <- t.byEffect.Keys :: e in s.byEffect && t.byEffect[e] == s.byEffect[e] && t.byEffect[e] != index
    ensures Whole(t)
  {
    hide Upto;
    forall e <- t.byEffect.Keys ensures t.byEffect[e] in t.used {
      StillUsed(s.used, t.used, index, t.byEffect[e]);
    }
  }

  lemma StillUsed(s: seq<nat>, t: seq<nat>, index: nat, x: nat)
    requires multiset(t) + multiset{index} == multiset(s) && x in s && x != index
    ensures x in t
  {
    assert (multiset(t) + multiset{index})[x] > 0;
  }

  /** `RemoveByIndex` frees a used index together with the effect that holds it, if any. */
  lemma RemoveByIndexIs(s: Effects, index: nat)
    requires Whole(s)
    ensures var r := RemovedByIndex(s, index);
      && Whole(r.0)
      && (r.1 <==> index in s.used)
      && (r.1 ==>
            && index !in r.0.used && index in r.0.open
            && forall e :: e in r.0.byEffect <==> e in s.byEffect && s.byEffect[e] != index)
      && (!r.1 ==> r.0 == s)
  {
    if index in s.used {
      ReleaseIs(s, index);
      FreedWhole(s, Released(s, index), RemovedByIndex(s, index).0, index);
      hide Released, Whole;
    }
  }

  // ----- runs

  function Applied(s: Effects, op: Op): Effects
  {
    match op
    case Add(effect) => Added(s, effect).0
    case Remove(effect) => Removed(s, effect).0
    case RemoveByIndex(index) => RemovedByIndex(s, index).0
  }

  function Run(ops: seq<Op>): Effects
  {
    if ops == [] then Effects(map[], [], []) else Applied(Run(ops[..|ops| - 1]), ops[|ops| - 1])
  }

  /** The invariant holds after every run of operations. */
  lemma {:induction false} RunWhole(ops: seq<Op>)
    ensures Whole(Run(ops))
  {
    if ops == [] {
      assert Upto(0) == [];
    } else {
      var s := Run(ops[..|ops| - 1]);
      RunWhole(ops[..|ops| - 1]);
      match ops[|ops| - 1]
      case Add(effect) => AddIs(s, effect);
      case Remove(effect) => RemoveIs(s, effect);
      case RemoveByIndex(index) => RemoveByIndexIs(s, index);
    }
  }

  // ----- leaks

  /** The used indexes that no effect holds. */
  ghost function Leaked(s: Effects): set<nat>
  {
    set x | x in s.used && forall e <- s.byEffect.Keys :: s.byEffect[e] != x
  }

  /** The index that an `Add` takes from the effect that held it: the effect is there already and an index is left. */
  function Leaks(s: Effects, effect: nat): set<nat>
  {
    if effect in s.byEffect && |s.used| < MOST then {s.byEffect[effect]} else {}
  }

  /** Exactly which indexes leak in an `Add`. */
  lemma AddLeaks(s: Effects, effect: nat)
    requires Whole(s)
    ensures Leaked(Added(s, effect).0) == Leaked(s) + Leaks(s, effect)
    ensures Leaked(s) !! Leaks(s, effect)
  {
    AddIs(s, effect);
    var r := Added(s, effect);
    if |s.used| < MOST {
      forall x ensures x in r.0.used <==> x in s.used || x == r.1 {
        assert x in multiset(r.0.used) <==> x in multiset(s.used) + multiset{r.1};
      }
      TakenLeaks(s, r.0, effect, r.1);
    }
  }

  lemma TakenLeaks(s: Effects, t: Effects, effect: nat, index: nat)
    requires Whole(s) && |s.used| < MOST && index !in s.used
    requires forall x :: x in t.used <==> x in s.used || x == index
    requires t.byEffect == s.byEffect[effect := index]
    ensures Leaked(t) == Leaked(s) + Leaks(s, effect) && Leaked(s) !! Leaks(s, effect)
  {
    hide Upto;
    forall x | x in Leaked(s) + Leaks(s, effect) ensures x in Leaked(t) {
      forall e <- t.byEffect.Keys ensures t.byEffect[e] != x {}
    }
    forall x | x in Leaked(t) ensures x in Leaked(s) + Leaks(s, effect) {
      assert t.byEffect[effect] != x;
      assert forall e <- s.byEffect.Keys | e != effect :: t.byEffect[e] == s.byEffect[e];
    }
  }

  /** `Add` keeps every used index in the hands of an effect if and only if the effect is new or all indexes are in
      use. */
  lemma AddLeaksIff(s: Effects, effect: nat)
    requires Whole(s) && Leaked(s) == {}
    ensures Leaked(Added(s, effect).0) == {} <==> effect !in s.byEffect || |s.used| == MOST
  {
    AddLeaks(s, effect);
    hide Leaked, Added;
  }

  /** `Remove` leaks nothing. */
  lemma RemoveLeaks(s: Effects, effect: nat)
    requires Whole(s)
    ensures Leaked(Removed(s, effect).0) == Leaked(s)
  {
    RemoveIs(s, effect);
    if effect in s.byEffect {
      HeldEffect(s, effect);
      hide Whole, Released, Leaked;
      ReleaseLeaks(s, Removed(s, effect).0, s.byEffect[effect]);
    }
  }

  lemma HeldEffect(s: Effects, effect: nat)
    requires Whole(s) && effect in s.byEffect
    ensures s.byEffect[effect] in s.used && s.byEffect[effect] !in Leaked(s)
    ensures forall e :: e in s.byEffect - {effect} <==> e in s.byEffect && s.byEffect[e] != s.byEffect[effect]
  {
    hide Upto;
  }

  /** `RemoveByIndex` mends a leak. */
  lemma RemoveIndexLeaks(s: Effects, index: nat)
    requires Whole(s)
    ensures Leaked(RemovedByIndex(s, index).0) == Leaked(s) - {index}
  {
    RemoveByIndexIs(s, index);
    if index in s.used {
      hide Whole, Released;
      ReleaseLeaks(s, RemovedByIndex(s, index).0, index);
    }
  }

  lemma ReleaseLeaks(s: Effects, t: Effects, index: nat)
    requires Whole(s) && index in s.used && index !in t.used && t.used == Released(s, index).used
    requires forall e :: e in t.byEffect <==> e in s.byEffect && s.byEffect[e] != index
    requires forall e <- t.byEffect.Keys :: t.byEffect[e] == s.byEffect[e]
    ensures Leaked(t) == Leaked(s) - {index}
  {
    ReleaseIs(s, index);
    hide Whole, Released;
    forall x ensures x in t.used <==> x in s.used && x != index {
      assert (multiset(t.used) + multiset{index})[x] == multiset(s.used)[x];
    }
    forall x | x in Leaked(t) ensures x in Leaked(s) - {index} {
      forall e <- s.byEffect.Keys ensures s.byEffect[e] != x {}
    }
  }

  /** The leaked indexes after a run: those that an `Add` took from their effect and no `RemoveByIndex` gave back
      since. */
  ghost function LeakedBy(ops: seq<Op>): set<nat>
  {
    if ops == [] then {}
    else
      var n := |ops| - 1;
      match ops[n]
      case Add(effect) => LeakedBy(ops[..n]) + Leaks(Run(ops[..n]), effect)
      case Remove(_) => LeakedBy(ops[..n])
      case RemoveByIndex(index) => LeakedBy(ops[..n]) - {index}
  }

  lemma {:induction false} RunLeaks(ops: seq<Op>)
    ensures Leaked(Run(ops)) == LeakedBy(ops)
  {
    if ops != [] {
      var n := |ops| - 1;
      RunLeaks(ops[..n]);
      RunWhole(ops[..n]);
      match ops[n]
      case Add(effect) => AddLeaks(Run(ops[..n]), effect);
      case Remove(effect) => RemoveLeaks(Run(ops[..n]), effect);
      case RemoveByIndex(index) => RemoveIndexLeaks(Run(ops[..n]), index);
    }
  }

  /** The operation does not add an effect that is there while an index is left. */
  predicate Careful(s: Effects, op: Op)
  {
    op.Add? ==> op.effect !in s.byEffect || |s.used| == MOST
  }

  /** In no state of a run an index is leaked if and only if every operation of the run is careful. */
  lemma {:induction false} RunLeaksIff(ops: seq<Op>)
    ensures (forall i | 0 <= i <= |ops| :: Leaked(Run(ops[..i])) == {}) <==> AllCareful(ops)
  {
    hide Run, Leaked, Careful;
    if forall i | 0 <= i <= |ops| :: Leaked(Run(ops[..i])) == {} {
      forall i | 0 <= i < |ops| ensures Careful(Run(ops[..i]), ops[i]) { CarefulStep(ops, i); }
    }
    if AllCareful(ops) {
      forall i | 0 <= i <= |ops| ensures Leaked(Run(ops[..i])) == {} { CarefulRun(ops, i); }
    }
  }

  predicate AllCareful(ops: seq<Op>)
  {
    forall i | 0 <= i < |ops| :: Careful(Run(ops[..i]), ops[i])
  }

  lemma CarefulStep(ops: seq<Op>, i: nat)
    requires i < |ops| && Leaked(Run(ops[..i])) == {}
    ensures Leaked(Run(ops[..i + 1])) == {} <==> Careful(Run(ops[..i]), ops[i])
  {
    var s := Run(ops[..i]);
    RunWhole(ops[..i]);
    assert ops[..i + 1][..i] == ops[..i];
    match ops[i]
    case Add(effect) => AddLeaksIff(s, effect);
    case Remove(effect) => RemoveLeaks(s, effect);
    case RemoveByIndex(index) => RemoveIndexLeaks(s, index);
  }

  lemma {:induction false} CarefulRun(ops: seq<Op>, i: nat)
    requires i <= |ops| && AllCareful(ops)
    ensures Leaked(Run(ops[..i])) == {}
  {
    if i > 0 {
      CarefulRun(ops, i - 1);
      CarefulStep(ops, i - 1);
    } else {
      assert ops[..0] == [];
    }
  }

  /** Adding an effect that is there already leaves its old index used and without an effect: adding one effect again
      and again uses up all indexes. */
  lemma {:induction false} SameEffectAgain(effect: nat, n: nat)
    requires n <= MOST
    ensures var s := Run(seq(n, _ => Add(effect)));
      && |s.used| == n && s.open == [] && s.byEffect.Keys == (if n == 0 then {} else {effect})
      && (n == MOST ==> Added(s, effect).1 == 0)
  {
    if n > 0 {
      var ops := seq(n, _ => Add(effect));
      assert ops[..n - 1] == seq(n - 1, _ => Add(effect));
      SameEffectAgain(effect, n - 1);
    }
  }

  // ----- the object

  class EffectList {
    var byEffect: map<nat, nat>
    var openIndexes: seq<nat>
    var usedIndexes: seq<nat>

    constructor ()
      ensures Now() == Run([]) && Whole(Now())
    {
      RunWhole([]);
      byEffect, openIndexes, usedIndexes := map[], [], [];
    }

    ghost function Now(): Effects
      reads this
    {
      Effects(byEffect, openIndexes, usedIndexes)
    }

    method GetOpenIndex() returns (index: nat)
      modifies this`openIndexes, this`usedIndexes
      ensures (Now(), index) == old(Opened(Now()))
    {
      if openIndexes == [] {
        if |usedIndexes| < MOST {
          usedIndexes := usedIndexes + [|usedIndexes| + 1];
          index := usedIndexes[|usedIndexes| - 1];
        } else {
          index := 0;
        }
      } else {
        index := openIndexes[|openIndexes| - 1];
        openIndexes := openIndexes[..|openIndexes| - 1];
        usedIndexes := usedIndexes + [index];
      }
    }

    method AddEffect(effect: nat) returns (index: nat)
      requires Whole(Now())
      modifies this
      ensures (Now(), index) == old(Added(Now(), effect)) && Whole(Now())
    {
      AddIs(Now(), effect);
      index := GetOpenIndex();
      if index != 0 {
        byEffect := byEffect[effect := index];
      }
    }

    /** The position of a used index, the length when it is not in use. */
    method FindUsed(index: nat) returns (at: nat)
      ensures at == Position(usedIndexes, index)
    {
      at := 0;
      while at < |usedIndexes| && usedIndexes[at] != index
        invariant at <= |usedIndexes| && index !in usedIndexes[..at]
      {
        assert usedIndexes[..at + 1] == usedIndexes[..at] + [usedIndexes[at]];
        at := at + 1;
      }
      FirstPosition(usedIndexes, index, at);
    }

    method Release(index: nat)
      modifies this`openIndexes, this`usedIndexes
      ensures Now() == old(Released(Now(), index))
    {
      var at := FindUsed(index);
      if at < |usedIndexes| {
        usedIndexes := usedIndexes[at := usedIndexes[|usedIndexes| - 1]];
        usedIndexes := usedIndexes[..|usedIndexes| - 1];
        openIndexes := openIndexes + [index];
      }
    }

    method RemoveEffect(effect: nat) returns (index: nat)
      requires Whole(Now())
      modifies this
      ensures (Now(), index) == old(Removed(Now(), effect)) && Whole(Now())
    {
      RemoveIs(Now(), effect);
      index := 0;
      if effect in byEffect {
        index := byEffect[effect];
        Release(index);
        byEffect := byEffect - {effect};
      }
    }

    method RemoveIndex(index: nat) returns (ok: bool)
      requires Whole(Now())
      modifies this
      ensures (Now(), ok) == old(RemovedByIndex(Now(), index)) && Whole(Now())
    {
      RemoveByIndexIs(Now(), index);
      ok := index in usedIndexes;
      if ok {
        Release(index);
        ghost var before := byEffect;
        if e :| e in byEffect && byEffect[e] == index {
          byEffect := byEffect - {e};
        }
        assert byEffect == map e | e in before && before[e] != index :: before[e];
      }
    }
  }

  lemma FirstPosition(s: seq<nat>, x: nat, at: nat)
    requires at <= |s| && x !in s[..at] && (at < |s| ==> s[at] == x)
    ensures at == Position(s, x)
  {
    var p := Position(s, x);
    assert forall i | 0 <= i < at :: s[i] in s[..at];
    assert forall i | 0 <= i < p :: s[i] in s[..p];
  }
}
