/** The sparse attributes of game/attributes.cpp and the changes they report since the last reset. */
module Attributes {
  import opened Options
  import opened Sequences

  /** `AttributeType::ClientCount`: attributes from here on are not stored. */
  const CLIENT_COUNT: nat := 111

  datatype Entry = Entry(idx: nat, value: real)

  // ----- sorted sparse vectors

  predicate Has(data: seq<Entry>, i: nat)
  {
    data != [] && (data[0].idx == i || Has(data[1..], i))
  }

  /** The value of an attribute, 0 when it is absent. */
  function Value(data: seq<Entry>, i: nat): real
  {
    if data == [] then 0.0 else if data[0].idx == i then data[0].value else Value(data[1..], i)
  }

  function Changed(data: seq<Entry>, i: nat, value: real): seq<Entry>
  {
    if data == [] then []
    else if data[0].idx == i then [Entry(i, value)] + data[1..]
    else [data[0]] + Changed(data[1..], i, value)
  }

  function Removed(data: seq<Entry>, i: nat): seq<Entry>
  {
    if data == [] then [] else if data[0].idx == i then data[1..] else [data[0]] + Removed(data[1..], i)
  }

  function Inserted(data: seq<Entry>, e: Entry): seq<Entry>
  {
    if data == [] || e.idx < data[0].idx then [e] + data else [data[0]] + Inserted(data[1..], e)
  }

  predicate Ascending(data: seq<Entry>)
  {
    forall a, b | 0 <= a < b < |data| :: data[a].idx < data[b].idx
  }

  lemma {:induction false} HasAt(data: seq<Entry>, i: nat)
    ensures Has(data, i) <==> exists a :: 0 <= a < |data| && data[a].idx == i
    ensures !Has(data, i) ==> Value(data, i) == 0.0
  {
    if data != [] {
      HasAt(data[1..], i);
      if Has(data[1..], i) {
        var a :| 0 <= a < |data[1..]| && data[1..][a].idx == i;
        assert data[a + 1].idx == i;
      }
      if a :| 0 <= a < |data| && data[a].idx == i {
        if a > 0 { assert data[1..][a - 1].idx == i; }
      }
    }
  }

  lemma {:induction false} ChangedIs(data: seq<Entry>, i: nat, value: real, j: nat)
    requires Ascending(data) && Has(data, i)
    ensures var d := Changed(data, i, value);
      && Ascending(d) && |d| == |data| && (Has(d, j) <==> Has(data, j))
      && Value(d, j) == (if j == i then value else Value(data, j))
      && forall a | 0 <= a < |d| :: d[a].idx == data[a].idx && (d[a] == data[a] || d[a] == Entry(i, value))
  {
    assert data == [data[0]] + data[1..];
    if data[0].idx != i {
      ChangedIs(data[1..], i, value, j);
    }
  }

  lemma {:induction false} RemovedIs(data: seq<Entry>, i: nat, j: nat)
    requires Ascending(data) && Has(data, i)
    ensures var d := Removed(data, i);
      && Ascending(d) && (Has(d, j) <==> j != i && Has(data, j))
      && Value(d, j) == (if j == i then 0.0 else Value(data, j))
      && forall e <- d :: e in data
  {
    assert data == [data[0]] + data[1..];
    if data[0].idx != i {
      RemovedIs(data[1..], i, j);
      var d := Removed(data[1..], i);
      assert forall e <- d :: e.idx > data[0].idx;
    } else {
      HasAt(data[1..], i);
    }
  }

  lemma {:induction false} InsertedIs(data: seq<Entry>, e: Entry, j: nat)
    requires Ascending(data) && !Has(data, e.idx)
    ensures var d := Inserted(data, e);
      && Ascending(d) && (Has(d, j) <==> j == e.idx || Has(data, j))
      && Value(d, j) == (if j == e.idx then e.value else Value(data, j))
      && (forall x <- d :: x == e || x in data)
  {
    if data == [] || e.idx < data[0].idx {
      assert ([e] + data)[1..] == data;
    } else {
      assert data == [data[0]] + data[1..];
      InsertedIs(data[1..], e, j);
      var d := Inserted(data[1..], e);
      assert forall x <- d :: x.idx > data[0].idx;
      assert Inserted(data, e) == [data[0]] + d && ([data[0]] + d)[1..] == d;
      hide Inserted;
    }
  }

  // ----- the state and one write

  /** The stored attributes, those erased since the last reset, and those written since. */
  datatype State = State(data: seq<Entry>, erased: seq<nat>, bits: set<nat>)

  ghost predicate Sane(s: State)
  {
    && Ascending(s.data) && (forall e <- s.data :: e.idx < CLIENT_COUNT && e.value != 0.0)
    && Distinct(s.erased) && (forall i <- s.erased :: i < CLIENT_COUNT && i in s.bits && !Has(s.data, i))
  }

  /** The state after a write; `None` where the source erases past the end of the erased list. */
  function Written(s: State, i: nat, value: real): Option<State>
  {
    if i >= CLIENT_COUNT then Some(s)
    else
      var t := s.(bits := s.bits + {i});
      if Has(s.data, i) then
        if value == 0.0 then Some(t.(data := Removed(s.data, i), erased := s.erased + [i]))
        else Some(t.(data := Changed(s.data, i, value)))
      else if value == 0.0 then Some(t)
      else if i !in s.bits then Some(t.(data := Inserted(s.data, Entry(i, value))))
      else if i in s.erased then Some(t.(data := Inserted(s.data, Entry(i, value)), erased := Without(s.erased, i)))
      else None
  }

  lemma RemovedAll(data: seq<Entry>, i: nat)
    requires Ascending(data) && Has(data, i)
    ensures var d := Removed(data, i);
      && Ascending(d) && (forall e <- d :: e in data)
      && forall j: nat ::
        (Has(d, j) <==> j != i && Has(data, j)) && Value(d, j) == (if j == i then 0.0 else Value(data, j))
  {
    RemovedIs(data, i, i);
    forall j: nat ensures (Has(Removed(data, i), j) <==> j != i && Has(data, j))
      && Value(Removed(data, i), j) == (if j == i then 0.0 else Value(data, j))
    {
      RemovedIs(data, i, j);
    }
  }

  lemma ChangedAll(data: seq<Entry>, i: nat, value: real)
    requires Ascending(data) && Has(data, i)
    ensures var d := Changed(data, i, value);
      && Ascending(d) && (forall e <- d :: e in data || e == Entry(i, value))
      && forall j: nat :: (Has(d, j) <==> Has(data, j)) && Value(d, j) == (if j == i then value else Value(data, j))
  {
    ChangedIs(data, i, value, i);
    var d := Changed(data, i, value);
    forall e <- d ensures e in data || e == Entry(i, value) {
      var a :| 0 <= a < |d| && d[a] == e;
      assert data[a] in data;
    }
    forall j: nat ensures (Has(d, j) <==> Has(data, j)) && Value(d, j) == (if j == i then value else Value(data, j)) {
      ChangedIs(data, i, value, j);
    }
  }

  lemma InsertedAll(data: seq<Entry>, e: Entry)
    requires Ascending(data) && !Has(data, e.idx)
    ensures var d := Inserted(data, e);
      && Ascending(d) && (forall x <- d :: x == e || x in data)
      && forall j: nat ::
        (Has(d, j) <==> j == e.idx || Has(data, j)) && Value(d, j) == (if j == e.idx then e.value else Value(data, j))
  {
    InsertedIs(data, e, 0);
    forall j: nat ensures (Has(Inserted(data, e), j) <==> j == e.idx || Has(data, j))
      && Value(Inserted(data, e), j) == (if j == e.idx then e.value else Value(data, j))
    {
      InsertedIs(data, e, j);
    }
  }

  /** What a write does to every attribute. */
  lemma WrittenIs(s: State, i: nat, value: real)
    requires Sane(s) && Written(s, i, value).Some? && i < CLIENT_COUNT
    ensures var t := Written(s, i, value).value;
      && Sane(t) && t.bits == s.bits + {i}
      && Value(t.data, i) == value && (Has(t.data, i) <==> value != 0.0)
      && (i in t.erased <==> value == 0.0 && (Has(s.data, i) || i in s.erased))
      && forall j: nat | j != i ::
           Value(t.data, j) == Value(s.data, j) && (Has(t.data, j) <==> Has(s.data, j))
             && (j in t.erased <==> j in s.erased)
  {
    hide Removed, Changed, Inserted, Has, Value, Without, Ascending, Distinct;
    HasAt(s.data, i);
    DistinctWithout(s.erased, i);
    if Has(s.data, i) {
      if value == 0.0 {
        RemovedAll(s.data, i);
        assert i !in s.erased;
        DistinctSnoc(s.erased, i);
      } else {
        ChangedAll(s.data, i, value);
        assert i !in s.erased;
      }
    } else if value != 0.0 {
      InsertedAll(s.data, Entry(i, value));
    }
  }

  // ----- what is reported

  /** The reported pairs: the written attributes that are stored, then the erased ones as 0, then the weapon damage. */
  function Reported(data: seq<Entry>, bits: set<nat>): seq<Entry>
  {
    if data == [] then []
    else Reported(data[..|data| - 1], bits) + if data[|data| - 1].idx in bits then [data[|data| - 1]] else []
  }

  function Zeros(erased: seq<nat>): (s: seq<Entry>)
    ensures |s| == |erased| && forall a | 0 <= a < |s| :: s[a] == Entry(erased[a], 0.0)
  {
    seq(|erased|, a requires 0 <= a < |erased| => Entry(erased[a], 0.0))
  }

  function Reflection(s: State, low: real, high: real): seq<Entry>
  {
    Reported(s.data, s.bits) + Zeros(s.erased) + [Entry(111, low), Entry(112, high)]
  }

  /** The value of an attribute after the pairs were applied one after the other to `base`. */
  function Applied(pairs: seq<Entry>, base: real, i: nat): real
  {
    if pairs == [] then base
    else
      var last := pairs[|pairs| - 1];
      if last.idx == i then last.value else Applied(pairs[..|pairs| - 1], base, i)
  }

  predicate NoneTwice(pairs: seq<Entry>)
  {
    forall a, b | 0 <= a < b < |pairs| :: pairs[a].idx != pairs[b].idx
  }

  lemma {:induction false} ReportedFrom(data: seq<Entry>, bits: set<nat>)
    ensures forall e :: e in Reported(data, bits) <==> e in data && e.idx in bits
  {
    if data != [] {
      var n := |data| - 1;
      ReportedFrom(data[..n], bits);
      assert data == data[..n] + [data[n]];
    }
  }

  lemma {:induction false} ReportedOnce(data: seq<Entry>, bits: set<nat>)
    requires Ascending(data)
    ensures NoneTwice(Reported(data, bits))
  {
    if data != [] {
      var n := |data| - 1;
      ReportedOnce(data[..n], bits);
      ReportedFrom(data[..n], bits);
      forall e <- Reported(data[..n], bits) ensures e.idx != data[n].idx {
        var a :| 0 <= a < n && data[..n][a] == e;
        assert data[a] == e;
      }
    }
  }

  /** With no attribute twice, the one pair for an attribute decides, and without one nothing changes. */
  lemma {:induction false} AppliedOne(pairs: seq<Entry>, base: real, i: nat)
    requires NoneTwice(pairs)
    ensures forall e <- pairs | e.idx == i :: Applied(pairs, base, i) == e.value
    ensures (forall e <- pairs :: e.idx != i) ==> Applied(pairs, base, i) == base
  {
    if pairs != [] {
      var n := |pairs| - 1;
      AppliedOne(pairs[..n], base, i);
      assert pairs == pairs[..n] + [pairs[n]];
    }
  }

  lemma {:induction false} ValueAt(data: seq<Entry>, a: nat)
    requires Ascending(data) && a < |data|
    ensures Value(data, data[a].idx) == data[a].value
  {
    if a > 0 { ValueAt(data[1..], a - 1); }
  }

  /** No attribute is reported twice. */
  lemma ReflectionOnce(s: State, low: real, high: real)
    requires Sane(s)
    ensures NoneTwice(Reflection(s, low, high))
  {
    ReportedOnce(s.data, s.bits);
    ReportedFrom(s.data, s.bits);
    var pairs := Reported(s.data, s.bits);
    forall e <- pairs ensures e.idx < CLIENT_COUNT && e.idx !in s.erased {
      var a :| 0 <= a < |s.data| && s.data[a] == e;
      HasAt(s.data, e.idx);
    }
    var zeros := Zeros(s.erased);
    assert NoneTwice(zeros);
    forall e <- zeros ensures e.idx in s.erased && e.idx < CLIENT_COUNT {
      var a :| 0 <= a < |zeros| && zeros[a] == e;
      assert s.erased[a] == e.idx;
    }
    TwiceSum(pairs, zeros);
    TwiceSum(pairs + zeros, [Entry(111, low), Entry(112, high)]);
  }

  lemma TwiceSum(a: seq<Entry>, b: seq<Entry>)
    requires NoneTwice(a) && NoneTwice(b) && forall x <- a, y <- b :: x.idx != y.idx
    ensures NoneTwice(a + b)
  {
    var c := a + b;
    forall i, j | 0 <= i < j < |c| ensures c[i].idx != c[j].idx {
      if i < |a| && j >= |a| { assert a[i] in a && b[j - |a|] in b; }
    }
  }

  // ----- the difference from the last reset

  /** What is reported describes the difference from `base`, the attributes at the last reset. */
  ghost predicate Tracks(s: State, base: seq<Entry>)
  {
    forall i: nat | i < CLIENT_COUNT ::
      && (i !in s.bits ==> Value(s.data, i) == Value(base, i))
      && (!Has(s.data, i) && i !in s.erased ==> Value(base, i) == 0.0)
  }

  lemma ResetTracks(data: seq<Entry>)
    requires Ascending(data) && forall e <- data :: e.idx < CLIENT_COUNT && e.value != 0.0
    ensures Sane(State(data, [], {})) && Tracks(State(data, [], {}), data)
  {
    forall i: nat | i < CLIENT_COUNT ensures !Has(data, i) ==> Value(data, i) == 0.0 { HasAt(data, i); }
  }

  lemma WrittenTracks(s: State, i: nat, value: real, base: seq<Entry>)
    requires Sane(s) && Tracks(s, base) && Written(s, i, value).Some?
    ensures Sane(Written(s, i, value).value) && Tracks(Written(s, i, value).value, base)
  {
    if i < CLIENT_COUNT {
      WrittenIs(s, i, value);
      hide Written;
    }
  }

  /** Applying what is reported to the attributes at the last reset gives the attributes as they are. */
  lemma ReflectionExact(s: State, base: seq<Entry>, low: real, high: real, i: nat)
    requires Sane(s) && Tracks(s, base)
    ensures i < CLIENT_COUNT ==> Applied(Reflection(s, low, high), Value(base, i), i) == Value(s.data, i)
    ensures Applied(Reflection(s, low, high), Value(base, i), i) == low || i != 111
    ensures Applied(Reflection(s, low, high), Value(base, i), i) == high || i != 112
  {
    var pairs := Reflection(s, low, high);
    ReflectionOnce(s, low, high);
    AppliedOne(pairs, Value(base, i), i);
    ReflectionHas(s, low, high);
    hide Reflection, Applied, NoneTwice;
    assert Entry(111, low) in pairs && Entry(112, high) in pairs;
    if i < CLIENT_COUNT {
      ReflectionAt(s, low, high, i);
      HasAt(s.data, i);
    }
  }

  lemma ReflectionHas(s: State, low: real, high: real)
    ensures forall e :: e in Reflection(s, low, high) <==>
      || (e in s.data && e.idx in s.bits) || (e.value == 0.0 && e.idx in s.erased)
      || e == Entry(111, low) || e == Entry(112, high)
  {
    ReportedFrom(s.data, s.bits);
    ZerosHas(s.erased);
    hide Reported, Zeros;
  }

  lemma ZerosHas(erased: seq<nat>)
    ensures forall e :: e in Zeros(erased) <==> e.value == 0.0 && e.idx in erased
  {
    forall e ensures e in Zeros(erased) <==> e.value == 0.0 && e.idx in erased {
      if e.value == 0.0 && e.idx in erased {
        var a :| 0 <= a < |erased| && erased[a] == e.idx;
        assert Zeros(erased)[a] == e;
      }
    }
  }

  lemma ReflectionAt(s: State, low: real, high: real, i: nat)
    requires Sane(s) && i < CLIENT_COUNT
    ensures var pairs := Reflection(s, low, high);
      if i in s.erased || (Has(s.data, i) && i in s.bits)
      then Entry(i, Value(s.data, i)) in pairs
      else forall e <- pairs :: e.idx != i
  {
    ReflectionHas(s, low, high);
    HasAt(s.data, i);
    hide Reflection;
    if i !in s.erased && Has(s.data, i) {
      var a :| 0 <= a < |s.data| && s.data[a].idx == i;
      ValueAt(s.data, a);
      assert s.data[a] == Entry(i, Value(s.data, i));
    }
    forall e <- s.data ensures Has(s.data, e.idx) {
      var a :| 0 <= a < |s.data| && s.data[a] == e;
      HasAt(s.data, e.idx);
    }
  }

  // ----- runs of writes

  type Write = (nat, real)

  /** The writes one after the other; `None` when one of them erases past the end. */
  function Run(s: State, writes: seq<Write>): Option<State>
    decreases |writes|
  {
    if writes == [] then Some(s)
    else
      var t := Written(s, writes[0].0, writes[0].1);
      if t.Some? then Run(t.value, writes[1..]) else None
  }

  /** The values written to attribute `k`, in order. */
  function ValuesFor(writes: seq<Write>, k: nat): seq<real>
  {
    if writes == [] then []
    else (if writes[0].0 == k then [writes[0].1] else []) + ValuesFor(writes[1..], k)
  }

  predicate SomeNonzero(values: seq<real>)
  {
    exists v <- values :: v != 0.0
  }

  /** An attribute that was absent at the reset is first written 0 and later something else. */
  predicate Stumbles(data: seq<Entry>, writes: seq<Write>, k: nat)
  {
    var values := ValuesFor(writes, k);
    !Has(data, k) && values != [] && values[0] == 0.0 && SomeNonzero(values)
  }

  /** Written, absent and not in the erased list: the next write of a nonzero value has nothing to erase. */
  predicate Trapped(s: State, k: nat)
  {
    k in s.bits && !Has(s.data, k) && k !in s.erased
  }

  /** The writes to attribute `k` fail from a state in the middle of a run. */
  predicate Fails(s: State, writes: seq<Write>, k: nat)
  {
    var values := ValuesFor(writes, k);
    if k in s.bits then Trapped(s, k) && SomeNonzero(values)
    else !Has(s.data, k) && values != [] && values[0] == 0.0 && SomeNonzero(values)
  }

  lemma NonzeroFirst(v: real, values: seq<real>)
    ensures SomeNonzero([v] + values) <==> v != 0.0 || SomeNonzero(values)
  {
    var all := [v] + values;
    assert all[0] == v;
    forall x <- values ensures x in all { assert all == [v] + values; }
    if SomeNonzero(all) {
      var x :| x in all && x != 0.0;
      assert x == v || x in values;
    }
    if v != 0.0 { assert v in all; }
  }

  lemma FailsStep(s: State, writes: seq<Write>, k: nat)
    requires Sane(s) && k < CLIENT_COUNT && writes != [] && Written(s, writes[0].0, writes[0].1).Some?
    ensures Fails(s, writes, k) <==> Fails(Written(s, writes[0].0, writes[0].1).value, writes[1..], k)
  {
    var i, v := writes[0].0, writes[0].1;
    var rest := ValuesFor(writes[1..], k);
    if i < CLIENT_COUNT {
      WrittenIs(s, i, v);
      hide Has;
      if i == k {
        NonzeroFirst(v, rest);
        assert ValuesFor(writes, k) == [v] + rest;
      } else {
        assert ValuesFor(writes, k) == rest;
      }
    } else {
      assert ValuesFor(writes, k) == rest;
    }
  }

  lemma FailsNow(s: State, writes: seq<Write>)
    requires Sane(s) && writes != [] && Written(s, writes[0].0, writes[0].1).None?
    ensures writes[0].0 < CLIENT_COUNT && Fails(s, writes, writes[0].0)
  {
    var v := writes[0].1;
    NonzeroFirst(v, ValuesFor(writes[1..], writes[0].0));
  }

  lemma {:induction false} RunFailsIff(s: State, writes: seq<Write>)
    requires Sane(s)
    ensures Run(s, writes).None? <==> exists k: nat :: k < CLIENT_COUNT && Fails(s, writes, k)
    decreases |writes|
  {
    if writes == [] {
      forall k: nat ensures !Fails(s, writes, k) {}
    } else if Written(s, writes[0].0, writes[0].1).None? {
      FailsNow(s, writes);
    } else {
      var t := Written(s, writes[0].0, writes[0].1).value;
      if writes[0].0 < CLIENT_COUNT { WrittenIs(s, writes[0].0, writes[0].1); }
      hide Fails;
      RunFailsIff(t, writes[1..]);
      forall k: nat | k < CLIENT_COUNT ensures Fails(s, writes, k) <==> Fails(t, writes[1..], k) {
        FailsStep(s, writes, k);
      }
    }
  }

  /** From a reset, a run of writes is defined exactly when no attribute that is absent at the reset is first written 0
      and later something else. */
  lemma RunDefinedIff(data: seq<Entry>, writes: seq<Write>)
    requires Ascending(data) && forall e <- data :: e.idx < CLIENT_COUNT && e.value != 0.0
    ensures Run(State(data, [], {}), writes).Some? <==> forall k: nat | k < CLIENT_COUNT :: !Stumbles(data, writes, k)
  {
    hide Has;
    ResetTracks(data);
    var s := State(data, [], {});
    RunFailsIff(s, writes);
    forall k: nat | k < CLIENT_COUNT ensures Fails(s, writes, k) <==> Stumbles(data, writes, k) {}
    hide Fails, Stumbles;
  }

  lemma {:induction false} RunTracks(s: State, base: seq<Entry>, writes: seq<Write>)
    requires Sane(s) && Tracks(s, base) && Run(s, writes).Some?
    ensures Sane(Run(s, writes).value) && Tracks(Run(s, writes).value, base)
    decreases |writes|
  {
    hide Written, Tracks, Sane;
    if writes != [] {
      WrittenTracks(s, writes[0].0, writes[0].1, base);
      RunTracks(Written(s, writes[0].0, writes[0].1).value, base, writes[1..]);
    }
  }

  /** After any defined run of writes since a reset, applying the report to the attributes at the reset yields the
      attributes as they are, and no attribute is reported twice. */
  lemma RunReflects(data: seq<Entry>, writes: seq<Write>, low: real, high: real, i: nat)
    requires Ascending(data) && (forall e <- data :: e.idx < CLIENT_COUNT && e.value != 0.0) && i < CLIENT_COUNT
    requires forall k: nat | k < CLIENT_COUNT :: !Stumbles(data, writes, k)
    ensures Run(State(data, [], {}), writes).Some?
    ensures var s := Run(State(data, [], {}), writes).value;
      && Applied(Reflection(s, low, high), Value(data, i), i) == Value(s.data, i)
      && NoneTwice(Reflection(s, low, high))
  {
    hide Stumbles, Has, Value, Tracks, Sane;
    RunDefinedIff(data, writes);
    ResetTracks(data);
    RunTracks(State(data, [], {}), data, writes);
    var s := Run(State(data, [], {}), writes).value;
    ReflectionExact(s, data, low, high, i);
    ReflectionOnce(s, low, high);
  }

  /** The smallest run that fails: an absent attribute is set to 0 and then to 1. */
  lemma ZeroThenOne(k: nat)
    requires k < CLIENT_COUNT
    ensures Run(State([], [], {}), [(k, 0.0), (k, 1.0)]) == None
  {
    var writes := [(k, 0.0), (k, 1.0)];
    var s := State([], [], {}).(bits := {k});
    assert {} + {k} == {k};
    assert Written(State([], [], {}), k, 0.0) == Some(s);
    assert Written(s, k, 1.0) == None;
    assert writes[1..] == [(k, 1.0)];
    assert Run(s, [(k, 1.0)]) == None;
  }

  // ----- the object

  class AttributeSet {
    var data: seq<Entry>
    var erased: seq<nat>
    var bits: set<nat>
    var minDamage: real
    var maxDamage: real

    constructor ()
      ensures Now() == State([], [], {}) && Sane(Now())
    {
      data, erased, bits := [], [], {};
      minDamage, maxDamage := 0.0, 0.0;
    }

    ghost function Now(): State
      reads this
    {
      State(data, erased, bits)
    }

    /** The position of an attribute, the length when it is absent. */
    method Find(idx: nat) returns (at: nat)
      ensures at <= |data| && (at < |data| <==> Has(data, idx))
      ensures at < |data| ==>
        && data[at].idx == idx && Value(data, idx) == data[at].value
        && Removed(data, idx) == data[..at] + data[at + 1..]
        && forall v: real :: Changed(data, idx, v) == data[at := Entry(idx, v)]
      ensures at == |data| ==> Value(data, idx) == 0.0
    {
      at := 0;
      while at < |data| && data[at].idx != idx
        invariant at <= |data|
        invariant forall a | 0 <= a < at :: data[a].idx != idx
      {
        at := at + 1;
      }
      Found(data, idx, at);
    }

    method GetValue(idx: nat) returns (value: real)
      ensures value == Value(data, idx)
    {
      var at := Find(idx);
      value := if at < |data| then data[at].value else 0.0;
    }

    /** `SetValue`; the caller must not set an attribute that is trapped. */
    method SetValue(idx: nat, value: real)
      requires Sane(Now()) && (idx < CLIENT_COUNT && value != 0.0 ==> !Trapped(Now(), idx))
      modifies this`data, this`erased, this`bits
      ensures Some(Now()) == old(Written(Now(), idx, value)) && Sane(Now())
    {
      hide Has, Value, Removed, Changed, Inserted, Without;
      if idx < CLIENT_COUNT { WrittenIs(Now(), idx, value); }
      var at := Find(idx);
      if idx < CLIENT_COUNT {
        if at < |data| {
          if value == 0.0 {
            data := data[..at] + data[at + 1..];
            erased := erased + [idx];
          } else {
            data := data[at := Entry(idx, value)];
          }
        } else if value != 0.0 {
          if idx in bits {
            EraseIndex(idx);
          }
          PushAndSort(Entry(idx, value));
        }
        bits := bits + {idx};
      }
    }

    /** Erases the first occurrence from the erased list. */
    method EraseIndex(idx: nat)
      requires idx in erased
      modifies this`erased
      ensures erased == Without(old(erased), idx)
    {
      var at := 0;
      while erased[at] != idx
        invariant 0 <= at < |erased| && idx !in erased[..at]
        decreases |erased| - at
      {
        assert erased == erased[..at + 1] + erased[at + 1..];
        assert erased[..at + 1] == erased[..at] + [erased[at]];
        at := at + 1;
      }
      WithoutAt(erased, at);
      erased := erased[..at] + erased[at + 1..];
    }

    /** The entry is pushed at the end and moved to its place: the order the sort gives, since no key is there twice. */
    method PushAndSort(e: Entry)
      requires Ascending(data) && !Has(data, e.idx)
      modifies this`data
      ensures data == Inserted(old(data), e)
    {
      hide Has, Ascending, Inserted;
      ghost var before := data;
      data := data + [e];
      var at := |data| - 1;
      while at > 0 && e.idx < data[at - 1].idx
        invariant 0 <= at < |data| == |before| + 1
        invariant data == before[..at] + [e] + before[at..]
        invariant forall a | at <= a < |before| :: e.idx < before[a].idx
      {
        Swapped(before, e, at);
        data := data[at - 1 := e][at := data[at - 1]];
        at := at - 1;
      }
      InsertedHere(before, data, e, at);
    }

    method SetWeaponDamage(low: real, high: real)
      modifies this`minDamage, this`maxDamage
      ensures minDamage == low && maxDamage == high
    {
      minDamage, maxDamage := low, high;
    }

    method WriteReflection() returns (pairs: seq<Entry>)
      ensures pairs == Reflection(Now(), minDamage, maxDamage)
    {
      pairs := [];
      var at := 0;
      while at < |data|
        invariant at <= |data| && pairs == Reported(data[..at], bits)
      {
        assert data[..at + 1][..at] == data[..at];
        if data[at].idx in bits {
          pairs := pairs + [data[at]];
        }
        at := at + 1;
      }
      assert data[..at] == data;
      at := 0;
      while at < |erased|
        invariant at <= |erased| && pairs == Reported(data, bits) + Zeros(erased)[..at]
      {
        pairs := pairs + [Entry(erased[at], 0.0)];
        at := at + 1;
      }
      assert Zeros(erased)[..at] == Zeros(erased);
      pairs := pairs + [Entry(111, minDamage)];
      pairs := pairs + [Entry(112, maxDamage)];
    }

    method ResetReflectionBits()
      requires Sane(Now())
      modifies this`erased, this`bits
      ensures Now() == State(data, [], {}) && Sane(Now()) && Tracks(Now(), data)
    {
      ResetTracks(data);
      bits := {};
      erased := [];
    }
  }

  lemma {:induction false} Found(data: seq<Entry>, idx: nat, at: nat)
    requires at <= |data| && forall a | 0 <= a < at :: data[a].idx != idx
    requires at < |data| ==> data[at].idx == idx
    ensures at < |data| <==> Has(data, idx)
    ensures at < |data| ==>
      && Value(data, idx) == data[at].value && Removed(data, idx) == data[..at] + data[at + 1..]
      && forall v: real :: Changed(data, idx, v) == data[at := Entry(idx, v)]
    ensures at == |data| ==> Value(data, idx) == 0.0
  {
    if at > 0 {
      Found(data[1..], idx, at - 1);
    }
  }

  lemma InsertedHere(before: seq<Entry>, data: seq<Entry>, e: Entry, at: nat)
    requires Ascending(before) && !Has(before, e.idx) && at <= |before|
    requires data == before[..at] + [e] + before[at..]
    requires forall a | at <= a < |before| :: e.idx < before[a].idx
    requires at > 0 ==> e.idx >= data[at - 1].idx
    ensures data == Inserted(before, e)
  {
    HasAt(before, e.idx);
    assert at > 0 ==> data[at - 1] == before[at - 1];
    hide Inserted;
    InsertedAt(before, e, at);
  }

  lemma Swapped(before: seq<Entry>, e: Entry, at: nat)
    requires 0 < at <= |before|
    ensures var d := before[..at] + [e] + before[at..];
      d[at - 1] == before[at - 1] && d[at - 1 := e][at := d[at - 1]] == before[..at - 1] + [e] + before[at - 1..]
  {}

  lemma {:induction false} InsertedAt(data: seq<Entry>, e: Entry, at: nat)
    requires at <= |data| && Ascending(data)
    requires forall a | at <= a < |data| :: e.idx < data[a].idx
    requires at > 0 ==> data[at - 1].idx < e.idx
    ensures Inserted(data, e) == data[..at] + [e] + data[at..]
  {
    if at > 0 {
      InsertedAt(data[1..], e, at - 1);
      assert data[0].idx <= data[at - 1].idx;
    }
  }
}
