/** The byte buffer of databuffer.cpp and its variable-length integers. */
module Buffers {
  import opened Options

  type byte = b: int | 0 <= b < 256

  type Bytes = seq<byte>

  // ----- variable-length integers

  /** The 55 bits that one encoded integer can give back. */
  const LIMIT: nat := 0x80_0000_0000_0000

  /** All bytes after the first: seven bits each, the high bit set on all but the last. */
  function Tail(v: nat): (s: Bytes)
    ensures |s| > 0
  {
    if v < 128 then [v] else [v % 128 + 128] + Tail(v / 128)
  }

  /** What `encode_tdf_integer` writes: six bits in the first byte. */
  function Varint(v: nat): (s: Bytes)
    ensures |s| > 0
  {
    if v < 64 then [v] else [v % 64 + 128] + Tail(v / 64)
  }

  /** A value shifted left: times a power of two. */
  function Scaled(v: nat, place: nat): nat
  {
    v * place
  }

  /** What `decode_tdf_integer` reads from the second byte on; `i` counts the bytes, the value of the next is shifted
      by `7 * i - 1`. There are at most eight bytes. */
  function ReadTail(s: Bytes, i: nat, value: nat, place: nat): (r: Option<(nat, Bytes)>)
    requires 1 <= i <= 8
    ensures r.Some? ==> |r.value.1| <= |s|
    decreases 8 - i
  {
    if i == 8 then Some((value, s))
    else if s == [] then None
    else
      var next := value + Scaled(s[0] % 128, place);
      if s[0] < 128 then Some((next, s[1..])) else ReadTail(s[1..], i + 1, next, place * 128)
  }

  function ReadVarint(s: Bytes): (r: Option<(nat, Bytes)>)
    ensures r.Some? ==> |r.value.1| < |s|
  {
    if s == [] then None
    else if s[0] < 128 then Some((s[0], s[1..]))
    else ReadTail(s[1..], 1, s[0] % 64, 64)
  }

  /** The value of the low `n` groups of seven bits. */
  function Low(v: nat, n: nat): nat
  {
    if n == 0 then 0 else v % 128 + 128 * Low(v / 128, n - 1)
  }

  /** Nothing is left above the low `n` groups. */
  predicate Fits(v: nat, n: nat)
  {
    if n == 0 then v == 0 else Fits(v / 128, n - 1)
  }

  lemma ScaledStep(r: nat, q: nat, place: nat)
    ensures Scaled(r, place) + Scaled(q, place * 128) == Scaled(r + 128 * q, place)
  {
    assert q * (place * 128) == (128 * q) * place;
  }

  /** The first byte of a longer tail. */
  lemma TailNext(v: nat, i: nat, value: nat, place: nat, rest: Bytes)
    requires 1 <= i < 8 && v >= 128
    ensures Tail(v) == [v % 128 + 128] + Tail(v / 128)
    ensures ReadTail(Tail(v) + rest, i, value, place) ==
      ReadTail(Tail(v / 128) + rest, i + 1, value + Scaled(v % 128, place), place * 128)
  {
    hide Scaled;
    var first := v % 128 + 128;
    assert (Tail(v) + rest)[0] == first && first >= 128 && first % 128 == v % 128;
    assert (Tail(v) + rest)[1..] == Tail(v / 128) + rest;
  }

  /** Reading back a written tail with `8 - i` bytes left: what fits in them is read whole. */
  lemma {:induction false} TailFits(v: nat, i: nat, value: nat, place: nat, rest: Bytes)
    requires 1 <= i < 8 && Fits(v, 8 - i)
    ensures ReadTail(Tail(v) + rest, i, value, place) == Some((value + Scaled(v, place), rest))
    ensures |Tail(v)| <= 8 - i
    decreases 8 - i
  {
    hide Scaled;
    if v < 128 {
      assert (Tail(v) + rest)[1..] == rest && v % 128 == v;
    } else {
      assert i < 7 by { assert Fits(v / 128, 7 - i) && v / 128 > 0; }
      TailNext(v, i, value, place, rest);
      TailFits(v / 128, i + 1, value + Scaled(v % 128, place), place * 128, rest);
      ScaledStep(v % 128, v / 128, place);
      hide ReadTail, Tail;
    }
  }

  /** A tail that is too long is cut: the low groups are read, the remaining bytes stay. */
  lemma {:induction false} TailCut(v: nat, i: nat, value: nat, place: nat, rest: Bytes)
    requires 1 <= i <= 8 && !Fits(v, 8 - i)
    ensures |Tail(v)| > 8 - i
    ensures ReadTail(Tail(v) + rest, i, value, place) ==
      Some((value + Scaled(Low(v, 8 - i), place), Tail(v)[8 - i..] + rest))
    decreases 8 - i
  {
    if i < 8 {
      hide Scaled;
      assert v >= 128 by { if v < 128 { FitsZero(7 - i); } }
      TailNext(v, i, value, place, rest);
      TailCut(v / 128, i + 1, value + Scaled(v % 128, place), place * 128, rest);
      ScaledStep(v % 128, Low(v / 128, 7 - i), place);
      hide ReadTail, Tail;
      assert Tail(v)[8 - i..] == Tail(v / 128)[7 - i..];
    } else {
      assert Tail(v)[0..] == Tail(v);
    }
  }

  lemma {:induction false} FitsZero(n: nat)
    ensures Fits(0, n)
  {
    if n > 0 { FitsZero(n - 1); }
  }

  lemma AtLeastOnce(k: nat, d: nat)
    requires k > 0
    ensures k * d >= d
  {}

  lemma DivModUnique(v: nat, d: nat, q: nat, r: nat)
    requires d > 0 && v == q * d + r && r < d
    ensures v / d == q && v % d == r
  {
    var q', r' := v / d, v % d;
    assert v == q' * d + r';
    assert (q' - q) * d == q' * d - q * d && (q - q') * d == q * d - q' * d;
    if q' > q {
      AtLeastOnce(q' - q, d);
    } else if q' < q {
      AtLeastOnce(q - q', d);
    }
  }

  lemma LowStep(v: nat, n: nat, p: nat)
    requires p > 0 && Low(v / 128, n) == (v / 128) % p
    ensures Low(v, n + 1) == v % (128 * p)
  {
    var q, r := v / 128, v % 128;
    assert Low(v, n + 1) == r + 128 * (q % p);
    hide Low;
    DivMod(q, p);
    Regroup(q / p, q % p, p, r);
    DivModUnique(v, 128 * p, q / p, 128 * (q % p) + r);
  }

  lemma DivMod(q: nat, p: nat)
    requires p > 0
    ensures q == (q / p) * p + q % p && 0 <= q % p < p && q / p >= 0
  {}

  lemma Regroup(a: nat, b: nat, p: nat, r: nat)
    ensures 128 * (a * p + b) + r == a * (128 * p) + (128 * b + r)
    ensures b < p && r < 128 ==> 128 * b + r < 128 * p
  {
    assert a * (128 * p) == 128 * (a * p);
  }

  /** Seven groups are 49 bits. */
  lemma LowSeven(v: nat)
    ensures Low(v, 7) == v % 0x2_0000_0000_0000
    ensures Fits(v, 7) <==> v < 0x2_0000_0000_0000
  {
    var v1, v2, v3 := v / 128, v / 128 / 128, v / 128 / 128 / 128;
    var v4, v5 := v3 / 128, v3 / 128 / 128;
    var v6 := v5 / 128;
    assert Low(v6, 1) == v6 % 128 by { assert Low(v6 / 128, 0) == 0; }
    LowStep(v5, 1, 0x80);
    LowStep(v4, 2, 0x4000);
    LowStep(v3, 3, 0x20_0000);
    LowStep(v2, 4, 0x1000_0000);
    LowStep(v1, 5, 0x8_0000_0000);
    LowStep(v, 6, 0x400_0000_0000);
    FitsSeven(v);
  }

  lemma FitsSeven(v: nat)
    ensures Fits(v, 7) <==> v < 0x2_0000_0000_0000
  {
    var v1 := v / 128;
    var v2 := v1 / 128;
    var v3 := v2 / 128;
    var v4 := v3 / 128;
    var v5 := v4 / 128;
    var v6 := v5 / 128;
    assert Fits(v, 7) == Fits(v1, 6) == Fits(v2, 5) == Fits(v3, 4) == Fits(v4, 3) == Fits(v5, 2) == Fits(v6, 1);
    assert Fits(v6, 1) == Fits(v6 / 128, 0);
    hide Fits;
    assert v < 0x2_0000_0000_0000 <==> v3 < 0x1000_0000;
    assert v3 < 0x1000_0000 <==> v6 < 128;
  }

  /** Decoding inverts encoding and consumes exactly the bytes written, whatever follows. */
  lemma VarintRound(v: nat, rest: Bytes)
    requires v < LIMIT
    ensures ReadVarint(Varint(v) + rest) == Some((v, rest))
    ensures |Varint(v)| <= 8
  {
    if v < 64 {
      assert (Varint(v) + rest)[1..] == rest;
    } else {
      LowSeven(v / 64);
      VarintNext(v, rest);
      TailFits(v / 64, 1, v % 64, 64, rest);
    }
  }

  lemma VarintNext(v: nat, rest: Bytes)
    requires v >= 64
    ensures ReadVarint(Varint(v) + rest) == ReadTail(Tail(v / 64) + rest, 1, v % 64, 64)
  {
    hide ReadTail, Tail;
    var first := v % 64 + 128;
    assert Varint(v) == [first] + Tail(v / 64);
    hide Varint;
    assert (Varint(v) + rest)[0] == first && first >= 128 && first % 64 == v % 64;
    assert (Varint(v) + rest)[1..] == Tail(v / 64) + rest;
  }

  /** A larger integer comes back without its high bits, and some of its bytes are left over. */
  lemma VarintCut(v: nat, rest: Bytes)
    requires v >= LIMIT
    ensures |Varint(v)| > 8
    ensures ReadVarint(Varint(v) + rest) == Some((v % LIMIT, Varint(v)[8..] + rest))
  {
    hide Varint, ReadVarint, Tail, ReadTail, Scaled;
    VarintLow(v);
    VarintNext(v, rest);
    CutAfter(v / 64, v % 64, rest);
    Leftover(v);
  }

  lemma Leftover(v: nat)
    requires v >= 64 && |Tail(v / 64)| > 7
    ensures |Varint(v)| > 8 && Varint(v)[8..] == Tail(v / 64)[7..]
  {
    assert Varint(v) == [v % 64 + 128] + Tail(v / 64);
    hide Varint, Tail;
  }

  lemma CutAfter(u: nat, low: nat, rest: Bytes)
    requires u >= 0x2_0000_0000_0000
    ensures |Tail(u)| > 7
    ensures ReadTail(Tail(u) + rest, 1, low, 64) ==
      Some((low + Scaled(u % 0x2_0000_0000_0000, 64), Tail(u)[7..] + rest))
  {
    hide Tail, ReadTail, Low, Fits, Scaled;
    LowSeven(u);
    TailCut(u, 1, low, 64, rest);
  }

  lemma VarintLow(v: nat)
    ensures v % LIMIT == v % 64 + Scaled((v / 64) % 0x2_0000_0000_0000, 64)
    ensures v >= LIMIT ==> v / 64 >= 0x2_0000_0000_0000
  {
    var u := v / 64;
    var a, b := u / 0x2_0000_0000_0000, u % 0x2_0000_0000_0000;
    assert v == a * LIMIT + (b * 64 + v % 64);
    DivModUnique(v, LIMIT, a, b * 64 + v % 64);
  }

  lemma ReadTailEnd(s: Bytes, value: nat, place: nat)
    ensures ReadTail(s, 8, value, place) == Some((value, s))
  {}

  /** One byte of a tail. */
  lemma ReadTailNext(s: Bytes, i: nat, value: nat, place: nat)
    requires 1 <= i < 8 && ReadTail(s, i, value, place).Some?
    ensures s != []
    ensures var next := value + Scaled(s[0] % 128, place);
      ReadTail(s, i, value, place) == if s[0] < 128 then Some((next, s[1..]))
        else ReadTail(s[1..], i + 1, next, place * 128)
  {}

  /** The bound is sharp. */
  lemma VarintRoundIff(v: nat, rest: Bytes)
    ensures ReadVarint(Varint(v) + rest) == Some((v, rest)) <==> v < LIMIT
  {
    if v < LIMIT {
      VarintRound(v, rest);
    } else {
      VarintCut(v, rest);
      assert |Varint(v)[8..] + rest| > |rest|;
    }
  }

  // ----- the bytes themselves

  function Power128(n: nat): (p: nat)
    ensures p > 0
  {
    if n == 0 then 1 else 128 * Power128(n - 1)
  }

  lemma DivTwice(v: nat, a: nat, b: nat)
    requires a > 0 && b > 0
    ensures a * b > 0 && v / a / b == v / (a * b)
  {
    var q, r := v / a, v % a;
    DivMod(v, a);
    DivMod(q, b);
    Nested(q / b, q % b, r, a, b);
    DivModUnique(v, a * b, q / b, q % b * a + r);
  }

  lemma Nested(q: nat, r: nat, low: nat, a: nat, b: nat)
    requires r < b && low < a
    ensures (q * b + r) * a + low == q * (a * b) + (r * a + low)
    ensures 0 <= r * a + low < a * b
  {
    AtMost(r + 1, b, a);
    assert (q * b) * a == q * (a * b);
  }

  lemma AtMost(a: nat, b: nat, c: nat)
    requires a <= b
    ensures a * c <= b * c
  {}

  lemma {:induction false} TailBytes(v: nat, i: nat)
    requires i < |Tail(v)|
    ensures Tail(v)[i] == v / Power128(i) % 128 + if i + 1 < |Tail(v)| then 128 else 0
    ensures v > 0 ==> Tail(v)[|Tail(v)| - 1] != 0
    decreases v
  {
    if v >= 128 {
      var rest := Tail(v / 128);
      assert Tail(v) == [v % 128 + 128] + rest;
      hide Tail;
      TailBytes(v / 128, if i == 0 then 0 else i - 1);
      if i > 0 { DivTwice(v, 128, Power128(i - 1)); }
    }
  }

  /** The bytes of an integer: a single one exactly below 64; otherwise six bits in the first and seven in each further
      one, lowest first, with the high bit set in all but the last, which is not 0. */
  lemma VarintBytes(v: nat, i: nat)
    requires i < |Varint(v)|
    ensures |Varint(v)| == 1 <==> v < 64
    ensures v < 64 ==> Varint(v)[0] == v
    ensures v >= 64 && i == 0 ==> Varint(v)[0] == 128 + v % 64
    ensures i > 0 ==> Varint(v)[i] == v / (64 * Power128(i - 1)) % 128 + if i + 1 < |Varint(v)| then 128 else 0
    ensures v > 0 ==> Varint(v)[|Varint(v)| - 1] != 0
  {
    if v >= 64 {
      var rest := Tail(v / 64);
      assert Varint(v) == [v % 64 + 128] + rest;
      hide Tail, Varint;
      TailBytes(v / 64, if i == 0 then 0 else i - 1);
      if i > 0 { DivTwice(v, 64, Power128(i - 1)); }
    }
  }

  /** The first `n` bytes as groups of seven bits, lowest first. */
  function Groups(s: Bytes, n: nat): nat
    requires n <= |s|
  {
    if n == 0 then 0 else s[0] % 128 + 128 * Groups(s[1..], n - 1)
  }

  lemma {:induction false} ReadTailIs(s: Bytes, i: nat, value: nat, place: nat) returns (n: nat)
    requires 1 <= i <= 8
    ensures n <= 8 - i && n <= |s| && forall k | 0 <= k < n - 1 :: s[k] >= 128
    ensures ReadTail(s, i, value, place).None? <==> n == |s| < 8 - i && (n > 0 ==> s[n - 1] >= 128)
    ensures ReadTail(s, i, value, place).Some? ==>
      && (n < 8 - i ==> n > 0 && s[n - 1] < 128)
      && ReadTail(s, i, value, place) == Some((value + Scaled(Groups(s, n), place), s[n..]))
    decreases 8 - i
  {
    if i == 8 || s == [] {
      n := 0;
    } else if s[0] < 128 {
      n := 1;
      assert Groups(s, 1) == s[0] % 128 + 128 * Groups(s[1..], 0);
    } else {
      hide Scaled;
      var next := value + Scaled(s[0] % 128, place);
      var m := ReadTailIs(s[1..], i + 1, next, place * 128);
      n := m + 1;
      assert forall k | 0 < k < n :: s[k] == s[1..][k - 1];
      ScaledStep(s[0] % 128, Groups(s[1..], m), place);
      assert Groups(s, n) == s[0] % 128 + 128 * Groups(s[1..], m);
      assert ReadTail(s, i, value, place) == ReadTail(s[1..], i + 1, next, place * 128);
      assert s[1..][m..] == s[n..];
      hide ReadTail, Groups;
    }
  }

  /** What any bytes are read as: the first byte alone if it is below 0x80, with all its bits; otherwise its low six
      bits, and seven of each further byte up to one below 0x80 or the eighth. Nothing is read exactly from fewer than
      eight bytes without an end. */
  lemma ReadVarintIs(s: Bytes) returns (n: nat)
    ensures n <= 8 && n <= |s| && forall k | 0 <= k < n - 1 :: s[k] >= 128
    ensures ReadVarint(s).None? <==> n == |s| < 8 && (n > 0 ==> s[n - 1] >= 128)
    ensures ReadVarint(s).Some? ==>
      && n > 0 && (n < 8 ==> s[n - 1] < 128)
      && ReadVarint(s) == Some((if s[0] < 128 then s[0] else s[0] % 64 + 64 * Groups(s[1..], n - 1), s[n..]))
  {
    if s == [] {
      n := 0;
    } else if s[0] < 128 {
      n := 1;
    } else {
      var m := ReadTailIs(s[1..], 1, s[0] % 64, 64);
      n := m + 1;
      assert forall k | 0 < k < n :: s[k] == s[1..][k - 1];
      hide ReadTail;
    }
  }

  // ----- the buffer

  /** The capacity after growing until `need` bytes fit: 64 at first, then 1024 more at a time. */
  function Capacity(capacity: nat, need: nat): (c: nat)
    ensures c >= capacity && c >= need
    ensures need <= capacity ==> c == capacity
    decreases if capacity == 0 then need + 1 else if need > capacity then need - capacity else 0
  {
    if need <= capacity then capacity
    else Capacity(if capacity == 0 then 64 else capacity + 1024, need)
  }

  /** The capacity after growing is the least that suffices of those reached by steps of 1024 from the present one, or
      from 64 if that is 0. */
  lemma {:induction false} CapacityIs(capacity: nat, need: nat)
    requires need > capacity
    ensures var c, base := Capacity(capacity, need), if capacity == 0 then 64 else capacity;
      c >= base && (c - base) % 1024 == 0 && c >= need && (c == base || c - 1024 < need)
    decreases if capacity == 0 then need + 1 else need - capacity
  {
    var next := if capacity == 0 then 64 else capacity + 1024;
    if need > next { CapacityIs(next, need); }
  }

  /** `s` written over `c` from position `p` on. */
  function Over(c: Bytes, p: nat, s: Bytes): Bytes
    requires p <= |c|
  {
    c[..p] + s + if p + |s| <= |c| then c[p + |s|..] else []
  }

  /** Byte by byte: those of `s` from `p` on, and the old ones elsewhere. */
  lemma OverAt(c: Bytes, p: nat, s: Bytes, i: nat)
    requires p <= |c|
    ensures |Over(c, p, s)| == if |c| < p + |s| then p + |s| else |c|
    ensures i < |Over(c, p, s)| ==> Over(c, p, s)[i] == if p <= i < p + |s| then s[i - p] else c[i]
  {}

  lemma OverTwice(c: Bytes, p: nat, s: Bytes, t: Bytes)
    requires p <= |c|
    ensures p + |s| <= |Over(c, p, s)|
    ensures Over(Over(c, p, s), p + |s|, t) == Over(c, p, s + t)
  {
    var d := Over(c, p, s);
    assert d[..p + |s|] == c[..p] + s;
    if p + |s| <= |c| && p + |s| + |t| <= |c| {
      assert d[p + |s| + |t|..] == c[p + |s| + |t|..];
    }
  }

  /** Writing into a grown buffer writes over its contents. */
  lemma WrittenOver(before: Bytes, grown: Bytes, size: nat, p: nat, data: Bytes)
    requires p <= size <= |before| <= |grown| && grown[..|before|] == before && p + |data| <= |grown|
    ensures (grown[..p] + data + grown[p + |data|..])[..if size < p + |data| then p + |data| else size] ==
      Over(before[..size], p, data)
  {
    assert grown[..p] == before[..p];
    assert before[..size][..p] == before[..p];
    if p + |data| <= size {
      assert before[..size][p + |data|..] == before[p + |data|..size];
      assert grown[p + |data|..][..size - p - |data|] == grown[p + |data|..size];
      assert grown[p + |data|..size] == before[p + |data|..size];
    }
  }

  lemma TailFirst(done: Bytes, v: nat)
    requires v >= 128
    ensures done + Tail(v) == done + [v % 128 + 128] + Tail(v / 128)
  {}

  function Zeros(n: nat): (s: Bytes)
    ensures |s| == n && forall i | 0 <= i < n :: s[i] == 0
  {
    seq(n, i => 0)
  }

  class DataBuffer {
    var buffer: Bytes     // the bytes up to the capacity
    var size: nat
    var position: nat

    constructor ()
      ensures Valid() && Contents() == [] && position == 0 && buffer == []
    {
      buffer, size, position := [], 0, 0;
    }

    /** Behind what has been written the buffer is zero. */
    ghost predicate Valid()
      reads this
    {
      size <= |buffer| && forall i | size <= i < |buffer| :: buffer[i] == 0
    }

    /** What has been written. */
    ghost function Contents(): (s: Bytes)
      requires Valid()
      reads this
    {
      buffer[..size]
    }

    /** What is still to be read. */
    ghost function Rest(): (s: Bytes)
      requires Valid()
      reads this
    {
      if position <= size then buffer[position..size] else []
    }

    predicate CanReadOrWrite(length: nat)
      reads this
    {
      position + length <= |buffer|
    }

    method ResizeBuffer()
      modifies this`buffer
      ensures buffer == old(buffer) + Zeros(if old(buffer) == [] then 64 else 1024)
    {
      buffer := buffer + Zeros(if buffer == [] then 64 else 1024);
    }

    /** Up to the capacity bytes are copied; beyond it nothing is. */
    method Peek(length: nat) returns (data: Bytes)
      ensures data == if position + length <= |buffer| then buffer[position..position + length] else []
    {
      data := if CanReadOrWrite(length) then buffer[position..position + length] else [];
    }

    method Read(length: nat) returns (data: Bytes)
      requires Valid()
      modifies this`position
      ensures old(position) + length <= |buffer| ==>
        position == old(position) + length && data == buffer[old(position)..position]
      ensures old(position) + length > |buffer| ==> position == old(position) && data == []
      ensures length <= |old(Rest())| ==> data == old(Rest())[..length] && Rest() == old(Rest())[length..]
    {
      data := [];
      if CanReadOrWrite(length) {
        data := buffer[position..position + length];
        position := position + length;
      }
    }

    method Skip(length: nat)
      requires Valid()
      modifies this`position
      ensures position == old(position) + length
      ensures length <= |old(Rest())| ==> Rest() == old(Rest())[length..]
    {
      position := position + length;
    }

    method Eof() returns (b: bool)
      requires Valid()
      ensures b == (Rest() == [])
    {
      b := position >= size;
    }

    method SetPosition(newPosition: nat)
      requires Valid()
      modifies this`position
      ensures position <= size && Rest() == if newPosition <= size then Contents()[newPosition..] else []
    {
      position := if newPosition < size then newPosition else size;
    }

    /** Grows until so many bytes fit at the position. */
    method MakeRoom(length: nat)
      requires Valid()
      modifies this`buffer
      ensures Valid() && position + length <= |buffer| && |buffer| == Capacity(|old(buffer)|, position + length)
      ensures old(buffer) <= buffer
    {
      while !CanReadOrWrite(length)
        invariant Valid() && old(buffer) <= buffer
        invariant Capacity(|old(buffer)|, position + length) == Capacity(|buffer|, position + length)
        decreases position + length - |buffer|
      {
        ResizeBuffer();
      }
    }

    /** Grows until the bytes fit and writes them at the position; the capacity never shrinks. */
    method Write(data: Bytes)
      requires Valid()
      modifies this
      ensures Valid() && position == old(position) + |data| && size == Max(old(size), position)
      ensures |buffer| == Capacity(|old(buffer)|, position)
      ensures old(position <= size) ==> Contents() == Over(old(Contents()), old(position), data)
    {
      ghost var before, p := buffer, position;
      MakeRoom(|data|);
      ghost var grown := buffer;
      buffer := buffer[..position] + data + buffer[position + |data|..];
      position := position + |data|;
      size := if size < position then position else size;
      if p <= old(size) {
        WrittenOver(before, grown, old(size), p, data);
      }
    }

    /** The whole buffer of the other is inserted at the end of what was written here; its padding comes after it. */
    method Insert(other: DataBuffer)
      requires Valid() && other.Valid()
      modifies this`buffer, this`size
      ensures Valid() && Contents() == old(Contents()) + old(other.Contents())
      ensures |buffer| == |old(buffer)| + |old(other.buffer)|
      ensures position == old(position)
    {
      ghost var mine, theirs := Contents(), other.Contents();
      var n := other.size;
      buffer := buffer[..size] + other.buffer + buffer[size..];
      size := size + n;
      assert buffer[..size] == mine + theirs;
    }

    /** One more byte after those in `done`, written since position `p` over the contents `c`. */
    method WriteByte(b: byte, ghost c: Bytes, ghost p: nat, ghost done: Bytes)
      requires Valid() && position == p + |done|
      requires p <= |c| ==> position <= size && Contents() == Over(c, p, done)
      modifies this
      ensures Valid() && position == p + |done| + 1
      ensures p <= |c| ==> position <= size && Contents() == Over(c, p, done + [b])
    {
      if p <= |c| { OverTwice(c, p, done, [b]); }
      Write([b]);
    }

    method EncodeTdfInteger(value: nat)
      requires Valid()
      modifies this
      ensures Valid() && position == old(position) + |Varint(value)|
      ensures old(position <= size) ==>
        position <= size && Contents() == Over(old(Contents()), old(position), Varint(value))
    {
      ghost var c, p := Contents(), position;
      if value < 0x40 {
        Write([value]);
      } else {
        ghost var first: Bytes := [value % 64 + 128];
        assert p <= |c| ==> Over(c, p, []) == c;
        hide Over, Tail;
        WriteByte(value % 64 + 128, c, p, []);
        assert [] + first == first && first + Tail(value / 64) == Varint(value);
        EncodeTail(value / 64, c, p, first);
      }
    }

    /** The bytes after the first, seven bits each. */
    method EncodeTail(value: nat, ghost c: Bytes, ghost p: nat, ghost first: Bytes)
      requires Valid() && position == p + |first|
      requires p <= |c| ==> position <= size && Contents() == Over(c, p, first)
      modifies this
      ensures Valid() && position == p + |first + Tail(value)|
      ensures p <= |c| ==> position <= size && Contents() == Over(c, p, first + Tail(value))
    {
      hide Over;
      var v := value;
      ghost var done: Bytes := first;
      while v >= 0x80
        invariant Valid() && position == p + |done|
        invariant p <= |c| ==> position <= size && Contents() == Over(c, p, done)
        invariant done + Tail(v) == first + Tail(value)
      {
        TailFirst(done, v);
        WriteByte(v % 128 + 128, c, p, done);
        done := done + [v % 128 + 128];
        v := v / 128;
      }
      WriteByte(v, c, p, done);
    }

    /** Eight bytes at most; the bit 0x40 of a first byte below 0x80 is part of the value. */
    method DecodeTdfInteger() returns (value: nat)
      requires Valid() && ReadVarint(Rest()).Some?
      modifies this`position
      ensures Some((value, Rest())) == old(ReadVarint(Rest()))
    {
      hide ReadTail;
      var data := Read(1);
      value := data[0];
      if value >= 0x80 {
        value := DecodeMore(value % 64);
      }
    }

    /** The loop over the bytes after the first. */
    method DecodeMore(first: nat) returns (value: nat)
      requires Valid() && ReadTail(Rest(), 1, first, 64).Some?
      modifies this`position
      ensures Some((value, Rest())) == old(ReadTail(Rest(), 1, first, 64))
    {
      hide ReadTail, Scaled;
      ghost var s := Rest();
      value := first;
      var i: nat, place: nat := 1, 64;
      while i < 8
        invariant 1 <= i <= 8 && Valid()
        invariant ReadTail(s, 1, first, 64) == ReadTail(Rest(), i, value, place)
      {
        ReadTailNext(Rest(), i, value, place);
        var data := Read(1);
        var next: nat := data[0];
        value := value + Scaled(next % 128, place);
        if next < 0x80 {
          return;
        }
        i, place := i + 1, place * 128;
      }
      ReadTailEnd(Rest(), value, place);
    }
  }

  function Max(a: nat, b: nat): nat { if a < b then b else a }
}
