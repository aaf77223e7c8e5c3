/** Packed labels and headers of blaze/tdf.cpp. */
module Labels {
  import opened Options
  import opened Buffers

  /** The six bits of one character, never 0: bit 0x20 over its low five bits. */
  function SixBits(c: byte): (n: nat)
    ensures 32 <= n < 64
  {
    32 + c % 32
  }

  /** How far character `i` of a packed label is shifted, as a factor. */
  function Place(i: nat): (p: nat)
    requires i < 4
    ensures p > 0
  {
    match i
    case 0 => 0x4_0000
    case 1 => 0x1000
    case 2 => 0x40
    case 3 => 1
  }

  /** The packed characters from `i` on. */
  function Packed(name: Bytes, i: nat): (n: nat)
    requires i <= 4
    decreases 4 - i
  {
    if i < 4 && i < |name| then SixBits(name[i]) * Place(i) + Packed(name, i + 1) else 0
  }

  /** The four bytes of a 32-bit value in reverse order. */
  function Swap32(v: nat): nat
    requires v < 0x1_0000_0000
  {
    (v % 256) * 0x100_0000 + (v / 256 % 256) * 0x1_0000 + (v / 0x1_0000 % 256) * 256 + v / 0x100_0000
  }

  lemma PackedBound(name: Bytes, i: nat)
    requires i <= 4
    ensures Packed(name, i) < 64 * if i == 0 then 0x4_0000 else Place(i - 1) / 1
    ensures i > 0 ==> Packed(name, i) < Place(i - 1)
    decreases 4 - i
  {
    if i < 4 { PackedBound(name, i + 1); }
  }

  function Compress(name: Bytes): (n: nat)
    ensures n < 0x100_0000
  {
    PackedBound(name, 0);
    Swap32(Packed(name, 0)) / 256
  }

  /** Character `i` of a packed label: `(packed >> ((3 - i) * 6)) & 0x3F`. */
  function SixOf(packed: nat, i: nat): (n: nat)
    requires i < 4
    ensures n < 64
  {
    packed / Place(i) % 64
  }

  function Unpacked(packed: nat, i: nat): Bytes
    requires i <= 4
    decreases 4 - i
  {
    if i == 4 then []
    else
      var six := SixOf(packed, i);
      (if six > 0 then [64 + six % 32] else []) + Unpacked(packed, i + 1)
  }

  function Decompress(name: nat): Bytes
    requires name < 0x100_0000
  {
    Unpacked(Swap32(name) / 256, 0)
  }

  /** The loop of `CompressLabel`. */
  method CompressLabel(name: Bytes) returns (n: nat)
    ensures n == Compress(name)
  {
    var ret: nat, i := 0, 0;
    while i < |name| && i < 4
      invariant i <= 4
      invariant ret + Packed(name, i) == Packed(name, 0)
    {
      ret := ret + SixBits(name[i]) * Place(i);
      i := i + 1;
    }
    PackedBound(name, 0);
    n := Swap32(ret) / 256;
  }

  method DecompressLabel(name: nat) returns (s: Bytes)
    requires name < 0x100_0000
    ensures s == Decompress(name)
  {
    s := Unpack(Swap32(name) / 256);
  }

  method Unpack(packed: nat) returns (s: Bytes)
    ensures s == Unpacked(packed, 0)
  {
    hide SixOf, Unpacked;
    s := [];
    var i := 0;
    while i < 4
      invariant i <= 4
      invariant s + Unpacked(packed, i) == Unpacked(packed, 0)
    {
      var six := SixOf(packed, i);
      UnpackedNext(s, packed, i);
      if six > 0 {
        s := s + [64 + six % 32];
      }
      i := i + 1;
    }
    UnpackedEnd(packed);
  }

  lemma UnpackedEnd(packed: nat)
    ensures Unpacked(packed, 4) == []
  {}

  lemma UnpackedNext(s: Bytes, packed: nat, i: nat)
    requires i < 4
    ensures var six := SixOf(packed, i);
      s + Unpacked(packed, i) == (if six > 0 then s + [64 + six % 32] else s) + Unpacked(packed, i + 1)
  {
    hide SixOf;
  }

  // ----- what packing keeps

  /** The first four characters, each mapped to `0x40 | (c & 0x1F)`. */
  function Normal(name: Bytes): (s: Bytes)
    ensures |s| == if |name| < 4 then |name| else 4
    ensures forall i | 0 <= i < |s| :: s[i] == 64 + name[i] % 32
  {
    seq(if |name| < 4 then |name| else 4, i requires 0 <= i < |name| => 64 + name[i] % 32)
  }

  lemma SwapDigits(high: byte, mid: byte, low: byte)
    ensures Swap32(high * 0x1_0000 + mid * 256 + low) / 256 == low * 0x1_0000 + mid * 256 + high
  {
    var v: nat := high * 0x1_0000 + mid * 256 + low;
    assert v / 256 == high * 256 + mid && v % 256 == low;
    assert (high * 256 + mid) % 256 == mid;
    assert v / 0x1_0000 == high && high % 256 == high && v / 0x100_0000 == 0;
    assert Swap32(v) == (low * 0x1_0000 + mid * 256 + high) * 256;
  }

  lemma Digits(packed: nat)
    requires packed < 0x100_0000
    ensures packed == (packed / 0x1_0000) * 0x1_0000 + (packed / 256 % 256) * 256 + packed % 256
    ensures packed / 0x1_0000 < 256
  {
    assert packed / 256 / 256 == packed / 0x1_0000;
  }

  lemma SwapBack(packed: nat)
    requires packed < 0x100_0000
    ensures Swap32(packed) / 256 < 0x100_0000
    ensures Swap32(Swap32(packed) / 256) / 256 == packed
    ensures Swap32(packed) / 256 == (packed % 256) * 0x1_0000 + (packed / 256 % 256) * 256 + packed / 0x1_0000
  {
    hide Swap32;
    Digits(packed);
    SwapTwice(packed / 0x1_0000, packed / 256 % 256, packed % 256);
  }

  lemma SwapTwice(high: byte, mid: byte, low: byte)
    ensures var packed: nat, back: nat := high * 0x1_0000 + mid * 256 + low, low * 0x1_0000 + mid * 256 + high;
      Swap32(packed) / 256 == back < 0x100_0000 && Swap32(back) / 256 == packed
  {
    hide Swap32;
    SwapDigits(high, mid, low);
    SwapDigits(low, mid, high);
  }

  /** The six bits of character `i`, 0 past the end. */
  function SixAt(name: Bytes, i: nat): (n: nat)
    ensures n < 64
  {
    if i < |name| then SixBits(name[i]) else 0
  }

  lemma PackedDigits(name: Bytes)
    ensures Packed(name, 0) ==
      SixAt(name, 0) * 0x4_0000 + SixAt(name, 1) * 0x1000 + SixAt(name, 2) * 0x40 + SixAt(name, 3)
  {
    assert Packed(name, 4) == 0;
    assert Packed(name, 3) == SixAt(name, 3);
    assert Packed(name, 2) == SixAt(name, 2) * 0x40 + SixAt(name, 3);
  }

  lemma DigitsBack(a: nat, b: nat, c: nat, d: nat)
    requires a < 64 && b < 64 && c < 64 && d < 64
    ensures var packed := a * 0x4_0000 + b * 0x1000 + c * 0x40 + d;
      && SixOf(packed, 0) == a && SixOf(packed, 1) == b
      && SixOf(packed, 2) == c && SixOf(packed, 3) == d
  {
    var packed := a * 0x4_0000 + b * 0x1000 + c * 0x40 + d;
    assert packed / 0x4_0000 == a && a % 64 == a;
    assert packed / 0x1000 == a * 64 + b && (a * 64 + b) % 64 == b;
    var top := a * 64 + b;
    assert packed / 0x40 == top * 64 + c && (top * 64 + c) % 64 == c;
    var most := top * 64 + c;
    assert packed / 1 == most * 64 + d && (most * 64 + d) % 64 == d;
  }

  /** Unpacking a packed label normalises it, whatever the label. */
  lemma LabelRound(name: Bytes)
    ensures Decompress(Compress(name)) == Normal(name)
  {
    var packed := Packed(name, 0);
    PackedBound(name, 0);
    SwapBack(packed);
    PackedDigits(name);
    DigitsBack(SixAt(name, 0), SixAt(name, 1), SixAt(name, 2), SixAt(name, 3));
    UnpackedFrom(name, packed, 0);
    assert Normal(name)[0..] == Normal(name);
  }

  lemma {:induction false} UnpackedFrom(name: Bytes, packed: nat, i: nat)
    requires i <= 4 && forall j | 0 <= j < 4 :: SixOf(packed, j) == SixAt(name, j)
    ensures Unpacked(packed, i) == Normal(name)[if i <= |Normal(name)| then i else |Normal(name)|..]
    decreases 4 - i
  {
    hide SixOf;
    if i < 4 {
      UnpackedFrom(name, packed, i + 1);
      if i < |name| { assert SixBits(name[i]) % 32 == name[i] % 32; }
    }
  }

  /** The identity exactly on labels of at most four characters from 0x40 to 0x5F. */
  lemma NormalIff(name: Bytes)
    ensures Normal(name) == name <==> |name| <= 4 && forall c <- name :: 0x40 <= c < 0x60
  {
    if Normal(name) == name {
      forall c <- name ensures 0x40 <= c < 0x60 {
        var i :| 0 <= i < |name| && name[i] == c;
        assert Normal(name)[i] == c;
      }
    }
    if |name| <= 4 && forall c <- name :: 0x40 <= c < 0x60 {
      forall i | 0 <= i < |name| ensures Normal(name)[i] == name[i] { assert name[i] in name; }
    }
  }

  // ----- headers

  /** The four bytes of a header, lowest first: the packed name, highest character first, and the type. */
  function Header(name: Bytes, tag: byte): (s: Bytes)
    ensures |s| == 4
  {
    var v := Compress(name);
    [v % 256, v / 256 % 256, v / 0x1_0000, tag]
  }

  /** What `ReadHeader` makes of the first four bytes. */
  function HeaderLabel(s: Bytes): Bytes
    requires |s| >= 3
  {
    var low: nat, mid: nat, high: nat := s[0], s[1], s[2];
    Decompress(low + mid * 256 + high * 0x1_0000)
  }

  lemma HeaderRound(name: Bytes, tag: byte, rest: Bytes)
    ensures var s := Header(name, tag) + rest;
      HeaderLabel(s) == Normal(name) && s[3] == tag && s[4..] == rest
  {
    LabelRound(name);
    HeaderBytes(Compress(name), name, tag, rest);
  }

  lemma HeaderBytes(v: nat, name: Bytes, tag: byte, rest: Bytes)
    requires v == Compress(name)
    ensures var s := Header(name, tag) + rest;
      HeaderLabel(s) == Decompress(v) && s[3] == tag && s[4..] == rest
  {
    hide Compress, Decompress;
    Digits(v);
    var s := Header(name, tag) + rest;
    assert s[0] == v % 256 && s[1] == v / 256 % 256 && s[2] == v / 0x1_0000;
  }

  /** The header bit by bit: four groups of six bits, highest first, 0 past the end of the label, and the type. */
  lemma HeaderBits(name: Bytes, tag: byte)
    ensures
      var a := if |name| > 0 then 32 + name[0] % 32 else 0;
      var b := if |name| > 1 then 32 + name[1] % 32 else 0;
      var c := if |name| > 2 then 32 + name[2] % 32 else 0;
      var d := if |name| > 3 then 32 + name[3] % 32 else 0;
      Header(name, tag) == [a * 4 + b / 16, b % 16 * 16 + c / 4, c % 4 * 64 + d, tag]
  {
    HeaderSixes(name, tag);
    hide Header;
  }

  lemma HeaderSixes(name: Bytes, tag: byte)
    ensures var a, b, c, d := SixAt(name, 0), SixAt(name, 1), SixAt(name, 2), SixAt(name, 3);
      Header(name, tag) == [a * 4 + b / 16, b % 16 * 16 + c / 4, c % 4 * 64 + d, tag]
  {
    hide SixAt, Packed, Swap32;
    PackedBound(name, 0);
    PackedDigits(name);
    SwapBytes(Packed(name, 0));
    var v := Compress(name);
    assert Header(name, tag) == [v % 256, v / 256 % 256, v / 0x1_0000, tag];
    hide Header, Compress;
    SixBytes(SixAt(name, 0), SixAt(name, 1), SixAt(name, 2), SixAt(name, 3));
  }

  /** Four groups of six bits as three bytes. */
  lemma SixBytes(a: nat, b: nat, c: nat, d: nat)
    requires a < 64 && b < 64 && c < 64 && d < 64
    ensures var packed := a * 0x4_0000 + b * 0x1000 + c * 0x40 + d;
      && packed / 0x1_0000 == a * 4 + b / 16
      && packed / 256 % 256 == b % 16 * 16 + c / 4
      && packed % 256 == c % 4 * 64 + d
  {
    var packed := a * 0x4_0000 + b * 0x1000 + c * 0x40 + d;
    var high, mid, low := a * 4 + b / 16, b % 16 * 16 + c / 4, c % 4 * 64 + d;
    assert packed == high * 0x1_0000 + mid * 256 + low;
    assert packed / 256 == high * 256 + mid;
  }

  lemma SwapBytes(packed: nat)
    requires packed < 0x100_0000
    ensures var v := Swap32(packed) / 256;
      v % 256 == packed / 0x1_0000 && v / 256 % 256 == packed / 256 % 256 && v / 0x1_0000 == packed % 256
  {
    SwapBack(packed);
    Digits(packed);
    hide Swap32;
    Bytewise(packed % 256, packed / 256 % 256, packed / 0x1_0000);
  }

  lemma Bytewise(a: nat, b: nat, c: nat)
    requires a < 256 && b < 256 && c < 256
    ensures var v := a * 0x1_0000 + b * 256 + c; v % 256 == c && v / 256 % 256 == b && v / 0x1_0000 == a
  {
    assert (a * 0x1_0000 + b * 256 + c) / 256 == a * 256 + b;
  }

  /** What any three bytes are read as: their groups of six bits, highest first, each 0x40 over its low five bits,
      groups that are 0 left out. */
  lemma HeaderLabelIs(s: Bytes)
    requires |s| >= 3
    ensures var a, b, c, d := s[0] / 4, s[0] % 4 * 16 + s[1] / 16, s[1] % 16 * 4 + s[2] / 64, s[2] % 64;
      HeaderLabel(s) == (if a == 0 then [] else [64 + a % 32]) + (if b == 0 then [] else [64 + b % 32])
        + (if c == 0 then [] else [64 + c % 32]) + (if d == 0 then [] else [64 + d % 32])
  {
    hide SixOf, Unpacked, HeaderLabel;
    var packed := HeaderPacked(s);
    SixBack(s[0], s[1], s[2]);
    UnpackedAll(packed);
  }

  lemma HeaderPacked(s: Bytes) returns (packed: nat)
    requires |s| >= 3
    ensures var high: nat, mid: nat, low: nat := s[0], s[1], s[2]; packed == high * 0x1_0000 + mid * 256 + low
    ensures HeaderLabel(s) == Unpacked(packed, 0)
  {
    hide Unpacked;
    var high: nat, mid: nat, low: nat := s[0], s[1], s[2];
    packed := high * 0x1_0000 + mid * 256 + low;
    SwapDigits(s[2], s[1], s[0]);
  }

  /** Three bytes as four groups of six bits. */
  lemma SixBack(high: byte, mid: byte, low: byte)
    ensures var packed := high * 0x1_0000 + mid * 256 + low;
      && SixOf(packed, 0) == high / 4 && SixOf(packed, 1) == high % 4 * 16 + mid / 16
      && SixOf(packed, 2) == mid % 16 * 4 + low / 64 && SixOf(packed, 3) == low % 64
  {
    var a: nat, b: nat, c: nat, d: nat := high / 4, high % 4 * 16 + mid / 16, mid % 16 * 4 + low / 64, low % 64;
    assert high * 0x1_0000 + mid * 256 + low == a * 0x4_0000 + b * 0x1000 + c * 0x40 + d;
    hide SixOf;
    DigitsBack(a, b, c, d);
  }

  lemma UnpackedAll(packed: nat)
    ensures var a, b, c, d := SixOf(packed, 0), SixOf(packed, 1), SixOf(packed, 2), SixOf(packed, 3);
      Unpacked(packed, 0) == (if a == 0 then [] else [64 + a % 32]) + (if b == 0 then [] else [64 + b % 32])
        + (if c == 0 then [] else [64 + c % 32]) + (if d == 0 then [] else [64 + d % 32])
  {
    hide SixOf;
    UnpackedEnd(packed);
    UnpackedOne(packed, 3);
    UnpackedOne(packed, 2);
    UnpackedOne(packed, 1);
    UnpackedOne(packed, 0);
    hide Unpacked;
  }

  lemma UnpackedOne(packed: nat, i: nat)
    requires i < 4
    ensures var six := SixOf(packed, i);
      Unpacked(packed, i) == (if six == 0 then [] else [64 + six % 32]) + Unpacked(packed, i + 1)
  {
    hide SixOf;
  }

  /** A header with a label is never taken for a terminator or a stub marker: its first byte is 0 without a label and
      at least 0x80 with one. */
  lemma HeaderFirst(name: Bytes, tag: byte)
    ensures name != [] ==> Header(name, tag)[0] >= 0x80
    ensures name == [] ==> Header(name, tag)[0] == 0
  {
    PackedBound(name, 0);
    PackedDigits(name);
    FirstByte(Packed(name, 0));
    hide Packed, Swap32;
    assert name == [] ==> Packed(name, 0) == 0;
    assert name != [] ==> Packed(name, 0) >= 0x80_0000;
  }

  lemma FirstByte(packed: nat)
    requires packed < 0x100_0000
    ensures (Swap32(packed) / 256) % 256 == packed / 0x1_0000
    ensures packed >= 0x80_0000 ==> packed / 0x1_0000 >= 0x80
  {
    SwapBack(packed);
    Digits(packed);
    hide Swap32;
    LowByte(packed % 256, packed / 256 % 256, packed / 0x1_0000);
  }

  lemma LowByte(a: nat, b: nat, c: nat)
    requires c < 256
    ensures (a * 0x1_0000 + b * 256 + c) % 256 == c
  {}
}
