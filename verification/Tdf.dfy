/** The TDF documents of blaze/tdf.cpp: what the packet writer prints, and what the parser reads back. */
module Tdf {
  import opened Options
  import opened Buffers
  import opened Labels

  const INTEGER: byte := 0
  const STRING: byte := 1
  const BINARY: byte := 2
  const STRUCT: byte := 3
  const LIST: byte := 4
  const MAP: byte := 5
  const UNION: byte := 6
  const INTEGER_LIST: byte := 7
  const OBJECT_TYPE: byte := 8
  const OBJECT_ID: byte := 9

  /** The member of a union that carries nothing. */
  const UNSET: byte := 0x7F

  /** A value of a document. Members of lists carry no name. */
  datatype Value =
    | Number(n: nat)
    | Text(s: Bytes)
    | Blob(s: Bytes)
    | Struct(members: Members)
    | List(elem: byte, stub: bool, items: Members)
    | Map(keyType: byte, valueType: byte, entries: Members)
    | Union(which: byte, members: Members)
    | IntegerList(items: Members)
    | ObjectType(x: nat, y: nat)
    | ObjectId(x: nat, y: nat, z: nat)

  datatype Members = Empty | Member(name: Bytes, value: Value, rest: Members)

  function Tag(v: Value): byte
  {
    match v
    case Number(_) => INTEGER
    case Text(_) => STRING
    case Blob(_) => BINARY
    case Struct(_) => STRUCT
    case List(_, _, _) => LIST
    case Map(_, _, _) => MAP
    case Union(_, _) => UNION
    case IntegerList(_) => INTEGER_LIST
    case ObjectType(_, _) => OBJECT_TYPE
    case ObjectId(_, _, _) => OBJECT_ID
  }

  function Count(ms: Members): nat
  {
    match ms
    case Empty => 0
    case Member(_, _, rest) => 1 + Count(rest)
  }

  function Snoc(ms: Members, name: Bytes, v: Value): Members
  {
    match ms
    case Empty => Member(name, v, Empty)
    case Member(n, w, rest) => Member(n, w, Snoc(rest, name, v))
  }

  /** The parser's `AddObject` into an object: a name that is there already gets the new value. */
  function Upsert(ms: Members, name: Bytes, v: Value): Members
  {
    match ms
    case Empty => Member(name, v, Empty)
    case Member(n, w, rest) => if n == name then Member(n, v, rest) else Member(n, w, Upsert(rest, name, v))
  }

  /** `AddObject`: into an object by name, into an array at the end. */
  function Added(ms: Members, listed: bool, name: Bytes, v: Value): Members
  {
    if listed then Snoc(ms, [], v) else Upsert(ms, name, v)
  }

  /** The member that was read, if any, added. */
  function AddedMember(ms: Members, listed: bool, m: Members): Members
  {
    if m.Empty? then ms else Added(ms, listed, m.name, m.value)
  }

  // ----- C strings and decimal numbers

  /** A C string ends at its first NUL. */
  function Cut(s: Bytes): (t: Bytes)
    ensures 0 !in t && t <= s
    ensures 0 !in s ==> t == s
  {
    if s == [] || s[0] == 0 then [] else [s[0]] + Cut(s[1..])
  }

  function Decimal(n: nat): (s: Bytes)
    ensures s != []
  {
    if n < 10 then [48 + n] else Decimal(n / 10) + [48 + n % 10]
  }

  predicate Digits(s: Bytes)
  {
    forall i | 0 <= i < |s| :: 48 <= s[i] < 58
  }

  function DigitsValue(s: Bytes): nat
    requires Digits(s)
  {
    if s == [] then 0
    else
      var last: nat := s[|s| - 1];
      DigitsValue(s[..|s| - 1]) * 10 + (last - 48)
  }

  /** The numbers that `std::to_string` prints, read as `std::stoull` reads them. */
  function Parsed(s: Bytes): Option<nat>
  {
    if s != [] && Digits(s) && (|s| > 1 ==> s[0] != 48) then Some(DigitsValue(s)) else None
  }

  /** Printing and reading decimal numbers are inverse to each other. */
  lemma {:induction false} DecimalRound(n: nat)
    ensures Digits(Decimal(n)) && DigitsValue(Decimal(n)) == n
    ensures Decimal(n)[0] == 48 <==> n == 0
    ensures Parsed(Decimal(n)) == Some(n)
  {
    if n >= 10 {
      DecimalRound(n / 10);
      assert Decimal(n)[..|Decimal(n)| - 1] == Decimal(n / 10);
      assert Decimal(n)[0] == Decimal(n / 10)[0];
    } else {
      assert Decimal(n)[..0] == [];
    }
  }

  lemma {:induction false} ParsedRound(s: Bytes)
    requires Parsed(s).Some?
    ensures Decimal(Parsed(s).value) == s
    ensures DigitsValue(s) == 0 ==> s[0] == 48
  {
    var end := |s| - 1;
    var last: nat := s[end];
    if end > 0 {
      var init := s[..end];
      assert Digits(init) && init[0] == s[0];
      ParsedRound(init);
      var v := DigitsValue(init);
      assert v > 0 && DigitsValue(s) == v * 10 + (last - 48);
      assert (v * 10 + (last - 48)) / 10 == v && (v * 10 + (last - 48)) % 10 == last - 48;
      assert Decimal(v * 10 + (last - 48)) == Decimal(v) + [48 + (last - 48)];
    } else {
      assert s[..0] == [] && s == [48 + (last - 48)];
      assert DigitsValue(s) == last - 48 && Decimal(last - 48) == [48 + (last - 48)];
    }
  }

  // ----- the writer

  function TextBytes(s: Bytes): Bytes
  {
    Varint(|Cut(s)| + 1) + Cut(s) + [0]
  }

  /** The name of a map entry, as its key. */
  function KeyBytes(keyType: byte, name: Bytes): Bytes
  {
    if keyType == INTEGER then Varint(if Parsed(Cut(name)).Some? then Parsed(Cut(name)).value else 0)
      else TextBytes(name)
  }

  /** `WriteType` without its header, for a value of its own type. */
  function Payload(v: Value): (s: Bytes)
    decreases v, 0
  {
    match v
    case Number(n) => Varint(n)
    case Text(s) => TextBytes(s)
    case Blob(s) => Varint(|Cut(s)|) + Cut(s)
    case Struct(ms) => Document(ms) + [0]
    case List(elem, stub, items) =>
      [elem, Count(items) % 256] +
        if stub then [2] + ItemBytes(elem, items, Count(items)) else ItemBytes(elem, items, Count(items) % 256)
    case Map(keyType, valueType, entries) =>
      [keyType, valueType, Count(entries) % 256] + EntryBytes(keyType, valueType, entries)
    case Union(which, ms) => [which] + (if which == UNSET then [] else Document(ms))
    case IntegerList(items) => [Count(items) % 256] + ItemBytes(INTEGER, items, Count(items) % 256)
    case ObjectType(x, y) => Varint(x) + Varint(y)
    case ObjectId(x, y, z) => Varint(x) + Varint(y) + Varint(z)
  }

  /** Members with their headers. */
  function Document(ms: Members): Bytes
    decreases ms
  {
    match ms
    case Empty => []
    case Member(name, v, rest) => Header(Cut(name), Tag(v)) + Payload(v) + Document(rest)
  }

  /** `WriteType` for an item of a list or a map, of the type that the list or the map announces: a string may stand for
      an integer, anything with members for a struct. */
  function PayloadAs(tag: byte, v: Value): Bytes
    decreases v, 1
  {
    if tag == INTEGER && v.Text? then KeyBytes(INTEGER, v.s)
    else if tag == STRUCT && v.Union? then Document(v.members) + [0]
    else if tag == STRUCT && v.Map? then Document(v.entries) + [0]
    else if tag == INTEGER_LIST && v.List? then
      [Count(v.items) % 256] + ItemBytes(INTEGER, v.items, Count(v.items) % 256)
    else if tag == OBJECT_TYPE && v.ObjectId? then Varint(v.x) + Varint(v.y)
    else Payload(v)
  }

  /** The first `n` items without headers. */
  function ItemBytes(elem: byte, ms: Members, n: nat): Bytes
    decreases ms
  {
    match ms
    case Empty => []
    case Member(_, v, rest) => if n == 0 then [] else PayloadAs(elem, v) + ItemBytes(elem, rest, n - 1)
  }

  function EntryBytes(keyType: byte, valueType: byte, ms: Members): Bytes
    decreases ms
  {
    match ms
    case Empty => []
    case Member(name, v, rest) =>
      KeyBytes(keyType, name) + PayloadAs(valueType, v) + EntryBytes(keyType, valueType, rest)
  }

  // ----- the parser

  type Read<T> = Option<(T, Bytes)>

  function ParseText(s: Bytes): (r: Read<Value>)
    ensures r.Some? ==> |r.value.1| < |s|
  {
    var n := ReadVarint(s);
    if n.Some? && 1 <= n.value.0 <= |n.value.1| then
      Some((Text(n.value.1[..n.value.0 - 1]), n.value.1[n.value.0..]))
    else None
  }

  function ParseNumber(s: Bytes): (r: Read<Value>)
    ensures r.Some? ==> |r.value.1| < |s|
  {
    var n := ReadVarint(s);
    if n.Some? then Some((Number(n.value.0), n.value.1)) else None
  }

  /** A blob comes back as a plain string. */
  function ParseBlob(s: Bytes): (r: Read<Value>)
    ensures r.Some? ==> |r.value.1| < |s|
  {
    var n := ReadVarint(s);
    if n.Some? && n.value.0 <= |n.value.1| then Some((Text(n.value.1[..n.value.0]), n.value.1[n.value.0..])) else None
  }

  function ParseNumbers(s: Bytes, n: nat): (r: Read<seq<nat>>)
    ensures r.Some? ==> |r.value.1| <= |s| && |r.value.0| == n && (n > 0 ==> |r.value.1| < |s|)
  {
    if n == 0 then Some(([], s))
    else
      var x := ReadVarint(s);
      if x.None? then None
      else
        var xs := ParseNumbers(x.value.1, n - 1);
        if xs.None? then None else Some(([x.value.0] + xs.value.0, xs.value.1))
  }

  /** Two or three integers. */
  function ParseObjectType(s: Bytes): (r: Read<Value>)
    ensures r.Some? ==> |r.value.1| < |s|
  {
    var xs := ParseNumbers(s, 2);
    if xs.Some? then Some((ObjectType(xs.value.0[0], xs.value.0[1]), xs.value.1)) else None
  }

  function ParseObjectId(s: Bytes): (r: Read<Value>)
    ensures r.Some? ==> |r.value.1| < |s|
  {
    var xs := ParseNumbers(s, 3);
    if xs.Some? then Some((ObjectId(xs.value.0[0], xs.value.0[1], xs.value.0[2]), xs.value.1)) else None
  }

  /** The parser for one type; `None` where it would read past the end or the type is not supported. */
  function Parse(tag: byte, s: Bytes): (r: Read<Value>)
    ensures r.Some? ==> |r.value.1| < |s|
    decreases |s|, 3
  {
    if tag == INTEGER then ParseNumber(s)
    else if tag == STRING then ParseText(s)
    else if tag == BINARY then ParseBlob(s)
    else if tag == STRUCT then ParseStruct(s)
    else if tag == LIST then ParseList(s)
    else if tag == MAP then ParseMap(s)
    else if tag == UNION then ParseUnion(s)
    else if tag == INTEGER_LIST then ParseIntegerList(s)
    else if tag == OBJECT_TYPE then ParseObjectType(s)
    else if tag == OBJECT_ID then ParseObjectId(s)
    else None
  }

  function ParseStruct(s: Bytes): (r: Read<Value>)
    ensures r.Some? ==> |r.value.1| < |s|
    decreases |s|, 2
  {
    var ms := ParseMembers(s, Empty, false);
    if ms.Some? then Some((Struct(ms.value.0), ms.value.1)) else None
  }

  /** A list of structs is a stub when the byte after its size is 2; there is no such byte at the end. */
  function ParseList(s: Bytes): (r: Read<Value>)
    ensures r.Some? ==> |r.value.1| < |s|
    decreases |s|, 2
  {
    if |s| < 2 then None
    else if |s| > 2 && s[2] == 2 && s[0] == STRUCT then
      var ms := ParseMembers(s[3..], Empty, true);
      if ms.Some? then Some((List(s[0], true, ms.value.0), ms.value.1)) else None
    else
      var ms := ParseItems(s[0], s[2..], s[1], Empty);
      if ms.Some? then Some((List(s[0], false, ms.value.0), ms.value.1)) else None
  }

  function ParseMap(s: Bytes): (r: Read<Value>)
    ensures r.Some? ==> |r.value.1| < |s|
    decreases |s|, 2
  {
    if |s| < 3 then None
    else
      var ms := ParseEntries(s[0], s[1], s[3..], s[2], Empty);
      if ms.Some? then Some((Map(s[0], s[1], ms.value.0), ms.value.1)) else None
  }

  function ParseUnion(s: Bytes): (r: Read<Value>)
    ensures r.Some? ==> |r.value.1| < |s|
    decreases |s|, 2
  {
    if s == [] then None
    else if s[0] == UNSET then Some((Union(s[0], Empty), s[1..]))
    else
      var m := ParseMember(s[1..]);
      if m.Some? then Some((Union(s[0], AddedMember(Empty, false, m.value.0)), m.value.1)) else None
  }

  function ParseIntegerList(s: Bytes): (r: Read<Value>)
    ensures r.Some? ==> |r.value.1| < |s|
    decreases |s|, 2
  {
    if s == [] then None
    else
      var ms := ParseItems(INTEGER, s[1..], s[0], Empty);
      if ms.Some? then Some((IntegerList(ms.value.0), ms.value.1)) else None
  }

  /** `ReadValue`: a header, then the value; a header at the very end is dropped. */
  function ParseMember(s: Bytes): (r: Read<Members>)
    ensures r.Some? ==> |r.value.1| < |s|
    ensures r.Some? && r.value.0.Member? ==> r.value.0.rest == Empty
    decreases |s|, 0
  {
    if |s| < 4 then None
    else if |s| == 4 then Some((Empty, []))
    else
      var v := Parse(s[3], s[4..]);
      if v.Some? then Some((Member(HeaderLabel(s), v.value.0, Empty), v.value.1)) else None
  }

  /** Members up to the terminator. */
  function ParseMembers(s: Bytes, done: Members, listed: bool): (r: Read<Members>)
    ensures r.Some? ==> |r.value.1| < |s|
    decreases |s|, 1
  {
    if s == [] then None
    else if s[0] == 0 then Some((done, s[1..]))
    else
      var m := ParseMember(s);
      if m.Some? then ParseMembers(m.value.1, AddedMember(done, listed, m.value.0), listed) else None
  }

  /** The items of a list; items of an unsupported type are skipped without reading. */
  function ParseItems(elem: byte, s: Bytes, n: nat, done: Members): (r: Read<Members>)
    ensures r.Some? ==> |r.value.1| <= |s|
    decreases |s|, 4, n
  {
    if n == 0 then Some((done, s))
    else if elem in {INTEGER, STRING, STRUCT} then
      var v := Parse(elem, s);
      if v.Some? then ParseItems(elem, v.value.1, n - 1, Snoc(done, [], v.value.0)) else None
    else ParseItems(elem, s, n - 1, done)
  }

  /** A map key as text: an integer is printed in decimal. */
  function KeyText(v: Value): Bytes
    requires v.Number? || v.Text?
  {
    if v.Number? then Decimal(v.n) else v.s
  }

  function ParseKey(keyType: byte, s: Bytes): (r: Read<Value>)
    ensures r.Some? ==> |r.value.1| < |s| && (r.value.0.Number? || r.value.0.Text?)
  {
    if keyType == INTEGER then ParseNumber(s) else if keyType == STRING then ParseText(s) else None
  }

  function ParseEntries(keyType: byte, valueType: byte, s: Bytes, n: nat, done: Members): (r: Read<Members>)
    ensures r.Some? ==> |r.value.1| <= |s|
    decreases |s|, 4
  {
    if n == 0 then Some((done, s))
    else
      var k := ParseKey(keyType, s);
      if k.None? || valueType !in {INTEGER, STRING, STRUCT} then None
      else
        var v := Parse(valueType, k.value.1);
        if v.Some? then ParseEntries(keyType, valueType, v.value.1, n - 1, Snoc(done, KeyText(k.value.0), v.value.0))
          else None
  }

  /** `Parser::Read`: members until the end of the buffer. */
  function ParseDocument(s: Bytes, done: Members): Option<Members>
    decreases |s|
  {
    if s == [] then Some(done)
    else
      var m := ParseMember(s);
      if m.Some? then ParseDocument(m.value.1, AddedMember(done, false, m.value.0)) else None
  }
}
