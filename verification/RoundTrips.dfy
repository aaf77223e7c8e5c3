/** What the parser makes of what the packet writer prints. */
module RoundTrips {
  import opened Options
  import opened Buffers
  import opened Labels
  import opened Tdf

  // ----- the documents the format can carry

  /** Integers below 2^55, labels that are not empty, at most 255 entries, list items and map entries of the announced
      type, integer, string or struct; a union is unset or has one member; a stub list holds one struct. */
  predicate Writable(v: Value)
    decreases v
  {
    match v
    case Number(n) => n < LIMIT
    case Text(s) => |Cut(s)| + 1 < LIMIT
    case Blob(s) => |Cut(s)| < LIMIT
    case Struct(ms) => WritableMembers(ms)
    case List(elem, stub, items) =>
      && Count(items) < 256 && elem in {INTEGER, STRING, STRUCT} && WritableItems(elem, items)
      && (stub ==> elem == STRUCT && Count(items) == 1)
    case Map(keyType, valueType, entries) =>
      && Count(entries) < 256 && keyType in {INTEGER, STRING} && valueType in {INTEGER, STRING, STRUCT}
      && WritableEntries(keyType, valueType, entries)
    case Union(which, ms) => which == UNSET || (Count(ms) == 1 && WritableMembers(ms))
    case IntegerList(items) => Count(items) < 256 && WritableItems(INTEGER, items)
    case ObjectType(x, y) => x < 0x1_0000 && y < 0x1_0000
    case ObjectId(x, y, z) => x < 0x1_0000 && y < 0x1_0000 && z < LIMIT
  }

  predicate WritableMembers(ms: Members)
    decreases ms
  {
    match ms
    case Empty => true
    case Member(name, v, rest) => Cut(name) != [] && Writable(v) && WritableMembers(rest)
  }

  predicate WritableItems(elem: byte, ms: Members)
    decreases ms
  {
    match ms
    case Empty => true
    case Member(_, v, rest) => Tag(v) == elem && Writable(v) && WritableItems(elem, rest)
  }

  predicate WritableKey(keyType: byte, name: Bytes)
  {
    if keyType == INTEGER then Parsed(Cut(name)).Some? && Parsed(Cut(name)).value < LIMIT else |Cut(name)| + 1 < LIMIT
  }

  predicate WritableEntries(keyType: byte, valueType: byte, ms: Members)
    decreases ms
  {
    match ms
    case Empty => true
    case Member(name, v, rest) =>
      WritableKey(keyType, name) && Tag(v) == valueType && Writable(v) && WritableEntries(keyType, valueType, rest)
  }

  // ----- what comes back

  /** The value as it is read back: labels are normalised, strings end at the first NUL, blobs are strings, the struct
      of a stub list is dissolved into its values, an unset union is empty. */
  function Reread(v: Value): Value
    decreases v
  {
    match v
    case Number(n) => v
    case Text(s) => Text(Cut(s))
    case Blob(s) => Text(Cut(s))
    case Struct(ms) => Struct(Merged(ms, Empty, false))
    case List(elem, stub, items) =>
      if stub && items.Member? && items.value.Struct? then List(elem, true, Merged(items.value.members, Empty, true))
      else List(elem, false, RereadItems(items, Empty))
    case Map(keyType, valueType, entries) => Map(keyType, valueType, RereadEntries(entries, Empty))
    case Union(which, ms) => Union(which, if which == UNSET then Empty else Merged(ms, Empty, false))
    case IntegerList(items) => IntegerList(RereadItems(items, Empty))
    case ObjectType(_, _) => v
    case ObjectId(_, _, _) => v
  }

  /** The members added one by one to those in `done`. */
  function Merged(ms: Members, done: Members, listed: bool): Members
    decreases ms
  {
    match ms
    case Empty => done
    case Member(name, v, rest) => Merged(rest, Added(done, listed, Normal(Cut(name)), Reread(v)), listed)
  }

  function RereadItems(ms: Members, done: Members): Members
    decreases ms
  {
    match ms
    case Empty => done
    case Member(_, v, rest) => RereadItems(rest, Snoc(done, [], Reread(v)))
  }

  function RereadEntries(ms: Members, done: Members): Members
    decreases ms
  {
    match ms
    case Empty => done
    case Member(name, v, rest) => RereadEntries(rest, Snoc(done, Cut(name), Reread(v)))
  }

  // ----- equal labels

  /** The labels in order. */
  function Labelling(ms: Members): seq<Bytes>
  {
    match ms
    case Empty => []
    case Member(name, _, rest) => [name] + Labelling(rest)
  }

  /** The value of the first member with that label. */
  function Lookup(ms: Members, name: Bytes): Option<Value>
  {
    match ms
    case Empty => None
    case Member(n, v, rest) => if n == name then Some(v) else Lookup(rest, name)
  }

  /** Adding to an object: a new label goes to the end, a known one keeps its place and gets the new value, and no other
      value changes. */
  lemma {:induction false} UpsertIs(ms: Members, name: Bytes, v: Value, other: Bytes)
    ensures Labelling(Upsert(ms, name, v)) == if name in Labelling(ms) then Labelling(ms) else Labelling(ms) + [name]
    ensures Lookup(Upsert(ms, name, v), other) == if other == name then Some(v) else Lookup(ms, other)
  {
    if ms.Member? { UpsertIs(ms.rest, name, v, other); }
  }

  /** Adding to an array: to the end, without a label. */
  lemma {:induction false} SnocIs(ms: Members, name: Bytes, v: Value)
    ensures Labelling(Snoc(ms, name, v)) == Labelling(ms) + [name]
    ensures forall other ::
      Lookup(Snoc(ms, name, v), other) == if other == name && Lookup(ms, name).None? then Some(v) else Lookup(ms, other)
  {
    if ms.Member? { SnocIs(ms.rest, name, v); }
  }

  /** The value of the last member whose label is read back as that one, read back. */
  function LastRead(ms: Members, name: Bytes): Option<Value>
  {
    match ms
    case Empty => None
    case Member(n, v, rest) =>
      if LastRead(rest, name).Some? then LastRead(rest, name)
      else if Normal(Cut(n)) == name then Some(Reread(v))
      else None
  }

  /** Of members with equal labels the last one is read back. */
  lemma {:induction false} MergedLast(ms: Members, done: Members, name: Bytes)
    ensures Lookup(Merged(ms, done, false), name) ==
      if LastRead(ms, name).Some? then LastRead(ms, name) else Lookup(done, name)
  {
    hide Normal, Cut, Reread, Upsert;
    if ms.Member? {
      UpsertIs(done, Normal(Cut(ms.name)), Reread(ms.value), name);
      MergedLast(ms.rest, Added(done, false, Normal(Cut(ms.name)), Reread(ms.value)), name);
    }
  }

  // ----- types that cannot be read

  /** Of a list whose items are of another type than integer, string or struct nothing is read but its type and its
      size: the items are taken for what follows the list. */
  lemma OtherListEmpty(elem: byte, size: byte, rest: Bytes)
    requires elem != 0 && elem != 1 && elem != 3
    ensures ParseList([elem, size] + rest) == Some((List(elem, false, Empty), rest))
  {
    assert ([elem, size] + rest)[2..] == rest;
    OtherItems(elem, rest, size, Empty);
  }

  lemma {:induction false} OtherItems(elem: byte, s: Bytes, n: nat, done: Members)
    requires elem != 0 && elem != 1 && elem != 3
    ensures ParseItems(elem, s, n, done) == Some((done, s))
    decreases n
  {
    if n > 0 { OtherItems(elem, s, n - 1, done); }
  }

  // ----- reading back

  /** What may follow a member: nothing, a terminator or another header. */
  predicate Follows(rest: Bytes)
  {
    rest == [] || rest[0] == 0 || rest[0] >= 0x80
  }

  lemma TextRound(s: Bytes, rest: Bytes)
    requires |Cut(s)| + 1 < LIMIT
    ensures ParseText(TextBytes(s) + rest) == Some((Text(Cut(s)), rest))
  {
    hide Varint, ReadVarint, Cut;
    var t := Cut(s);
    VarintRound(|t| + 1, t + [0] + rest);
    assert TextBytes(s) + rest == Varint(|t| + 1) + (t + [0] + rest);
    assert (t + [0] + rest)[..|t|] == t && (t + [0] + rest)[|t| + 1..] == rest;
  }

  lemma BlobRound(s: Bytes, rest: Bytes)
    requires |Cut(s)| < LIMIT
    ensures ParseBlob(Varint(|Cut(s)|) + Cut(s) + rest) == Some((Text(Cut(s)), rest))
  {
    hide Varint, ReadVarint, Cut;
    var t := Cut(s);
    VarintRound(|t|, t + rest);
    assert Varint(|t|) + t + rest == Varint(|t|) + (t + rest);
    assert (t + rest)[..|t|] == t && (t + rest)[|t|..] == rest;
  }

  lemma NumbersRound(x: nat, y: nat, z: nat, rest: Bytes)
    requires x < LIMIT && y < LIMIT && z < LIMIT
    ensures ParseNumbers(Varint(x) + Varint(y) + rest, 2) == Some(([x, y], rest))
    ensures ParseNumbers(Varint(x) + Varint(y) + Varint(z) + rest, 3) == Some(([x, y, z], rest))
  {
    hide Varint, ReadVarint;
    NumberFirst(z, 0, rest);
    NumberFirst(y, 0, rest);
    NumberFirst(y, 1, Varint(z) + rest);
    NumberFirst(x, 1, Varint(y) + rest);
    NumberFirst(x, 2, Varint(y) + (Varint(z) + rest));
    assert Varint(x) + Varint(y) + rest == Varint(x) + (Varint(y) + rest);
    assert Varint(x) + Varint(y) + Varint(z) + rest == Varint(x) + (Varint(y) + (Varint(z) + rest));
    assert [z] + [] == [z] && [y] + [] == [y] && [x] + [y] == [x, y] && [y] + [z] == [y, z]
      && [x] + [y, z] == [x, y, z];
  }

  lemma NumberFirst(x: nat, n: nat, rest: Bytes)
    requires x < LIMIT
    ensures ParseNumbers(Varint(x) + rest, n + 1) ==
      if ParseNumbers(rest, n).None? then None
      else Some(([x] + ParseNumbers(rest, n).value.0, ParseNumbers(rest, n).value.1))
  {
    VarintRound(x, rest);
  }

  lemma MemberFirst(name: Bytes, v: Value, rest: Bytes)
    requires Cut(name) != []
    ensures var s := Header(Cut(name), Tag(v)) + Payload(v) + rest;
      s[0] >= 0x80 && |s| > 4 && HeaderLabel(s) == Normal(Cut(name)) && s[3] == Tag(v) && s[4..] == Payload(v) + rest
  {
    hide Header, HeaderLabel, Payload;
    HeaderRound(Cut(name), Tag(v), Payload(v) + rest);
    HeaderFirst(Cut(name), Tag(v));
    PayloadSome(v);
    assert Header(Cut(name), Tag(v)) + Payload(v) + rest == Header(Cut(name), Tag(v)) + (Payload(v) + rest);
  }

  /** An item of the announced type is written as such. */
  lemma OwnType(v: Value)
    ensures PayloadAs(Tag(v), v) == Payload(v)
  {
    hide Payload, Document, ItemBytes, KeyBytes, Varint;
  }

  lemma PayloadSome(v: Value)
    ensures Payload(v) != []
  {}

  /** What follows a member is a header or what follows the members. */
  lemma DocumentFirst(ms: Members, rest: Bytes)
    requires WritableMembers(ms) && Follows(rest)
    ensures Follows(Document(ms) + rest)
    ensures ms.Member? ==> Document(ms) != [] && Document(ms)[0] >= 0x80
  {
    if ms.Member? {
      HeaderFirst(Cut(ms.name), Tag(ms.value));
    }
  }

  /** Types whose end does not depend on what follows. */
  predicate Closed(tag: byte)
  {
    tag in {INTEGER, STRING, STRUCT}
  }

  /** Parsing what was printed gives the value back, as `Reread` describes, and consumes exactly the bytes printed,
      whatever well-formed data follows. */
  lemma {:induction false} ValueRound(v: Value, rest: Bytes)
    requires Writable(v) && (Closed(Tag(v)) || Follows(rest))
    ensures Parse(Tag(v), Payload(v) + rest) == Some((Reread(v), rest))
    decreases v, 1
  {
    hide Varint, ReadVarint, ParseNumbers, Header, HeaderLabel, Cut;
    hide ParseStruct, ParseList, ParseMap, ParseUnion, ParseIntegerList, ParseText, ParseBlob, Document, ItemBytes,
      EntryBytes;
    match v
    case Number(n) => VarintRound(n, rest);
    case Text(s) => TextRound(s, rest);
    case Blob(s) => BlobRound(s, rest);
    case Struct(ms) => StructRound(v, rest);
    case List(_, _, _) => ListRound(v, rest);
    case Map(_, _, _) => MapRound(v, rest);
    case Union(_, _) => UnionRound(v, rest);
    case IntegerList(_) => IntegerListRound(v, rest);
    case ObjectType(x, y) => NumbersRound(x, y, 0, rest);
    case ObjectId(x, y, z) => NumbersRound(x, y, z, rest);
  }

  lemma {:induction false} StructRound(v: Value, rest: Bytes)
    requires Writable(v) && v.Struct?
    ensures ParseStruct(Payload(v) + rest) == Some((Reread(v), rest))
    decreases v, 0
  {
    hide ParseMembers;
    MembersRound(v.members, Empty, false, rest);
    assert Payload(v) + rest == Document(v.members) + [0] + rest;
  }

  lemma {:induction false} MapRound(v: Value, rest: Bytes)
    requires Writable(v) && v.Map?
    ensures ParseMap(Payload(v) + rest) == Some((Reread(v), rest))
    decreases v, 0
  {
    hide ParseEntries, EntryBytes, WritableEntries;
    EntriesRound(v.keyType, v.valueType, v.entries, Empty, rest);
    MapBytes(v, rest);
    hide Payload;
  }

  lemma MapBytes(v: Value, rest: Bytes)
    requires v.Map? && Count(v.entries) < 256
    ensures var s := Payload(v) + rest;
      && |s| >= 3 && s[0] == v.keyType && s[1] == v.valueType && s[2] == Count(v.entries)
      && s[3..] == EntryBytes(v.keyType, v.valueType, v.entries) + rest
  {
    hide EntryBytes;
  }

  lemma {:induction false} IntegerListRound(v: Value, rest: Bytes)
    requires Writable(v) && v.IntegerList?
    ensures ParseIntegerList(Payload(v) + rest) == Some((Reread(v), rest))
    decreases v, 0
  {
    hide ParseItems, ItemBytes, WritableItems;
    ItemsRound(INTEGER, v.items, Empty, rest);
    IntegerListBytes(v, rest);
    hide Payload;
  }

  lemma IntegerListBytes(v: Value, rest: Bytes)
    requires v.IntegerList? && Count(v.items) < 256
    ensures var s := Payload(v) + rest;
      s != [] && s[0] == Count(v.items) && s[1..] == ItemBytes(INTEGER, v.items, Count(v.items)) + rest
  {
    hide ItemBytes;
  }

  lemma {:induction false} UnionRound(v: Value, rest: Bytes)
    requires Writable(v) && v.Union? && Follows(rest)
    ensures ParseUnion(Payload(v) + rest) == Some((Reread(v), rest))
    decreases v, 0
  {
    hide Header, HeaderLabel, Normal, Cut, Parse;
    var s, m := Payload(v) + rest, v.members;
    if v.which == UNSET {
      assert Payload(v) == [v.which];
      assert s[0] == UNSET && s[1..] == rest;
    } else {
      CountOne(m);
      UnionBytes(v, rest);
      MemberFirst(m.name, m.value, rest);
      ValueRound(m.value, rest);
      MergedOne(m);
      hide Payload, Merged, Document;
      assert ParseMember(s[1..]) == Some((Member(Normal(Cut(m.name)), Reread(m.value), Empty), rest));
    }
  }

  lemma UnionBytes(v: Value, rest: Bytes)
    requires v.Union? && v.which != UNSET && v.members.Member? && v.members.rest == Empty
    ensures var m, s := v.members, Payload(v) + rest;
      s[0] == v.which && s[1..] == Header(Cut(m.name), Tag(m.value)) + Payload(m.value) + rest
  {
    UnionPayload(v);
    hide Header, Cut, Payload;
    var m := v.members;
    LedBytes(v.which, Header(Cut(m.name), Tag(m.value)), Payload(m.value), rest);
  }

  lemma LedBytes(first: byte, s: Bytes, t: Bytes, rest: Bytes)
    ensures var all := [first] + (s + t) + rest; all[0] == first && all[1..] == s + t + rest
  {}

  lemma UnionPayload(v: Value)
    requires v.Union? && v.which != UNSET && v.members.Member? && v.members.rest == Empty
    ensures Payload(v) == [v.which] + (Header(Cut(v.members.name), Tag(v.members.value)) + Payload(v.members.value))
  {
    hide Header, Cut;
    var m := v.members;
    assert Document(m.rest) == [];
    assert Document(m) == Header(Cut(m.name), Tag(m.value)) + Payload(m.value) + Document(m.rest);
    assert Payload(v) == [v.which] + Document(m);
  }

  lemma MergedOne(m: Members)
    requires m.Member? && m.rest == Empty
    ensures Merged(m, Empty, false) == Member(Normal(Cut(m.name)), Reread(m.value), Empty)
  {
    hide Normal, Cut, Reread;
  }

  lemma CountOne(ms: Members)
    requires Count(ms) == 1
    ensures ms.Member? && ms.rest == Empty
  {
    assert Count(ms.rest) == 0;
  }

  lemma {:induction false} ListRound(v: Value, rest: Bytes)
    requires Writable(v) && v.List? && Follows(rest)
    ensures ParseList(Payload(v) + rest) == Some((Reread(v), rest))
    decreases v, 0
  {
    hide ParseMembers, ParseItems, ItemBytes, WritableItems;
    if v.stub {
      StubRound(v, rest);
    } else {
      ItemsRound(v.elem, v.items, Empty, rest);
      if v.elem == STRUCT { StructsFirst(v.items, rest); }
      ListBytes(v, rest);
      hide Payload;
    }
  }

  lemma ListBytes(v: Value, rest: Bytes)
    requires v.List? && !v.stub && Count(v.items) < 256
    ensures var s := Payload(v) + rest;
      && |s| >= 2 && s[0] == v.elem && s[1] == Count(v.items)
        && s[2..] == ItemBytes(v.elem, v.items, Count(v.items)) + rest
      && (|s| > 2 ==> s[2] == s[2..][0])
  {
    hide ItemBytes;
  }

  /** The one struct of a stub list follows the stub marker. */
  lemma {:induction false} StubRound(v: Value, rest: Bytes)
    requires Writable(v) && v.List? && v.stub
    ensures ParseList(Payload(v) + rest) == Some((Reread(v), rest))
    decreases v, 0, 0
  {
    hide ParseMembers, ParseItems, Document;
    CountOne(v.items);
    assert Writable(v.items.value);
    MembersRound(v.items.value.members, Empty, true, rest);
    StubBytes(v, rest);
    hide Payload;
  }

  lemma StubBytes(v: Value, rest: Bytes)
    requires v.List? && v.stub && v.elem == STRUCT && v.items.Member? && v.items.rest == Empty && v.items.value.Struct?
    ensures var s := Payload(v) + rest;
      |s| > 2 && s[0] == v.elem && s[2] == 2 && s[3..] == Document(v.items.value.members) + [0] + rest
  {
    StubPayload(v);
    hide Payload, Document;
    assert ([v.elem, 1, 2] + (Document(v.items.value.members) + [0]) + rest)[2] == 2;
  }

  lemma StubPayload(v: Value)
    requires v.List? && v.stub && v.elem == STRUCT && v.items.Member? && v.items.rest == Empty && v.items.value.Struct?
    ensures Payload(v) == [v.elem, 1, 2] + (Document(v.items.value.members) + [0])
  {
    hide ItemBytes, Document, PayloadAs, Count, Varint;
    OneCounts(v.items);
    OneItem(v.items);
    assert Payload(v) == [v.elem, 1] + ([2] + ItemBytes(v.elem, v.items, 1));
  }

  lemma OneItem(items: Members)
    requires items.Member? && items.rest == Empty && items.value.Struct?
    ensures ItemBytes(STRUCT, items, 1) == Document(items.value.members) + [0]
  {
    assert ItemBytes(STRUCT, items, 1) == PayloadAs(STRUCT, items.value) + ItemBytes(STRUCT, items.rest, 0);
    assert ItemBytes(STRUCT, items.rest, 0) == [];
    assert PayloadAs(STRUCT, items.value) == Payload(items.value) == Document(items.value.members) + [0];
    hide Document;
  }

  lemma OneCounts(items: Members)
    requires items.Member? && items.rest == Empty
    ensures Count(items) == 1
  {
    assert Count(items.rest) == 0;
  }

  /** A list of structs that is not a stub never looks like one. */
  lemma StructsFirst(items: Members, rest: Bytes)
    requires WritableItems(STRUCT, items) && Follows(rest)
    ensures Follows(ItemBytes(STRUCT, items, Count(items)) + rest)
  {
    hide Header;
    if items.Member? {
      DocumentFirst(items.value.members, [0]);
      assert Payload(items.value) == Document(items.value.members) + [0];
    }
  }

  lemma {:induction false} MembersRound(ms: Members, done: Members, listed: bool, rest: Bytes)
    requires WritableMembers(ms)
    ensures ParseMembers(Document(ms) + [0] + rest, done, listed) == Some((Merged(ms, done, listed), rest))
    decreases ms, 2
  {
    hide Varint, ReadVarint, Header, HeaderLabel, Parse, Payload, Cut;
    var s := Document(ms) + [0] + rest;
    if ms.Empty? {
      assert s == [0] + rest;
    } else {
      var next := Document(ms.rest) + [0] + rest;
      DocumentFirst(ms.rest, [0] + rest);
      assert next == Document(ms.rest) + ([0] + rest);
      MemberFirst(ms.name, ms.value, next);
      ValueRound(ms.value, next);
      assert s == Header(Cut(ms.name), Tag(ms.value)) + Payload(ms.value) + next;
      MembersRound(ms.rest, Added(done, listed, Normal(Cut(ms.name)), Reread(ms.value)), listed, rest);
    }
  }

  lemma {:induction false} ItemsRound(elem: byte, ms: Members, done: Members, rest: Bytes)
    requires WritableItems(elem, ms) && Closed(elem)
    ensures ParseItems(elem, ItemBytes(elem, ms, Count(ms)) + rest, Count(ms), done) ==
      Some((RereadItems(ms, done), rest))
    decreases ms, 2
  {
    hide Parse, Payload, PayloadAs;
    if ms.Empty? {
      assert ItemBytes(elem, ms, 0) + rest == rest;
    } else {
      var next := ItemBytes(elem, ms.rest, Count(ms.rest)) + rest;
      ValueRound(ms.value, next);
      OwnType(ms.value);
      assert ItemBytes(elem, ms, Count(ms)) + rest == Payload(ms.value) + next;
      ItemsRound(elem, ms.rest, Snoc(done, [], Reread(ms.value)), rest);
    }
  }

  lemma KeyRound(keyType: byte, name: Bytes, rest: Bytes)
    requires keyType in {INTEGER, STRING} && WritableKey(keyType, name)
    ensures var k := ParseKey(keyType, KeyBytes(keyType, name) + rest);
      k.Some? && KeyText(k.value.0) == Cut(name) && k.value.1 == rest
  {
    if keyType == INTEGER {
      VarintRound(Parsed(Cut(name)).value, rest);
      ParsedRound(Cut(name));
    } else {
      TextRound(name, rest);
    }
  }

  lemma {:induction false} EntriesRound(keyType: byte, valueType: byte, ms: Members, done: Members, rest: Bytes)
    requires WritableEntries(keyType, valueType, ms) && keyType in {INTEGER, STRING} && Closed(valueType)
    ensures ParseEntries(keyType, valueType, EntryBytes(keyType, valueType, ms) + rest, Count(ms), done) ==
      Some((RereadEntries(ms, done), rest))
    decreases ms, 2
  {
    hide Parse, Payload, PayloadAs, KeyBytes, ParseKey, WritableKey, Reread, Cut, Snoc, Writable;
    if ms.Empty? {
      assert EntryBytes(keyType, valueType, ms) + rest == rest;
    } else {
      var next := EntryBytes(keyType, valueType, ms.rest) + rest;
      KeyRound(keyType, ms.name, Payload(ms.value) + next);
      ValueRound(ms.value, next);
      OwnType(ms.value);
      assert EntryBytes(keyType, valueType, ms) + rest == KeyBytes(keyType, ms.name) + (Payload(ms.value) + next);
      assert Count(ms) == Count(ms.rest) + 1;
      EntriesRound(keyType, valueType, ms.rest, Snoc(done, Cut(ms.name), Reread(ms.value)), rest);
    }
  }

  /** A whole document. */
  lemma {:induction false} DocumentRound(ms: Members, done: Members)
    requires WritableMembers(ms)
    ensures ParseDocument(Document(ms), done) == Some(Merged(ms, done, false))
  {
    hide Header, HeaderLabel, Parse, Payload, Cut;
    if ms.Member? {
      var next := Document(ms.rest);
      DocumentFirst(ms.rest, []);
      assert next + [] == next;
      MemberFirst(ms.name, ms.value, next);
      ValueRound(ms.value, next);
      DocumentRound(ms.rest, Added(done, false, Normal(Cut(ms.name)), Reread(ms.value)));
    }
  }

  /** The code is prefix-free: two printed values of one type that begin the same byte sequence, each followed by
      well-formed data, end at the same place and are read back alike. */
  lemma Unambiguous(v: Value, w: Value, rest: Bytes, rest': Bytes)
    requires Writable(v) && Writable(w) && Tag(v) == Tag(w)
    requires Closed(Tag(v)) || (Follows(rest) && Follows(rest'))
    requires Payload(v) + rest == Payload(w) + rest'
    ensures Reread(v) == Reread(w) && rest == rest' && Payload(v) == Payload(w)
  {
    hide Payload, Parse, Reread, Writable;
    ValueRound(v, rest);
    ValueRound(w, rest');
    var n := |Payload(v)|;
    assert n == |Payload(w)|;
    assert (Payload(v) + rest)[..n] == Payload(v) && (Payload(w) + rest')[..n] == Payload(w);
  }

  /** Without a label a member ends the struct: its header begins with the terminator. */
  lemma EmptyLabelEnds(name: Bytes, v: Value, more: Members, done: Members, listed: bool, rest: Bytes)
    requires Cut(name) == []
    ensures var s := Document(Member(name, v, more)) + [0] + rest;
      ParseMembers(s, done, listed) == Some((done, s[1..]))
  {
    hide Header;
    HeaderFirst(Cut(name), Tag(v));
  }
}
