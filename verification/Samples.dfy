/** Concrete values of every type as bytes, and a message that is built step by step. */
module Samples {
  import opened Options
  import opened Buffers
  import opened Labels
  import opened Tdf
  import opened Packets

  const ATTR: Bytes := [65, 84, 84, 82]
  const FLAG: Bytes := [70, 76, 65, 71]
  const TARG: Bytes := [84, 65, 82, 71]

  /** One member with the integer 1. */
  const ONE: Members := Member(FLAG, Number(1), Empty)

  lemma HeaderSamples()
    ensures Header(ATTR, 5) == [135, 77, 50, 5]
    ensures Header(FLAG, 0) == [154, 200, 103, 0]
    ensures Header(TARG, 9) == [210, 28, 167, 9]
  {
    hide Header;
    HeaderOf(65, 84, 84, 82, 5, 33, 52, 52, 50);
    HeaderOf(70, 76, 65, 71, 0, 38, 44, 33, 39);
    HeaderOf(84, 65, 82, 71, 9, 52, 33, 50, 39);
  }

  lemma HeaderOf(a: byte, b: byte, c: byte, d: byte, tag: byte, i: nat, j: nat, k: nat, l: nat)
    requires i == 32 + a % 32 && j == 32 + b % 32 && k == 32 + c % 32 && l == 32 + d % 32
    ensures Header([a, b, c, d], tag) == [i * 4 + j / 16, j % 16 * 16 + k / 4, k % 4 * 64 + l, tag]
  {
    HeaderBits([a, b, c, d], tag);
    hide Header;
  }

  /** The type that the header of a member announces. */
  lemma TypeSamples(name: Bytes, v: Value)
    ensures Header(name, Tag(v))[3] ==
      match v
      case Number(_) => 0
      case Text(_) => 1
      case Blob(_) => 2
      case Struct(_) => 3
      case List(_, _, _) => 4
      case Map(_, _, _) => 5
      case Union(_, _) => 6
      case IntegerList(_) => 7
      case ObjectType(_, _) => 8
      case ObjectId(_, _, _) => 9
  {
    HeaderBits(name, Tag(v));
    hide Header;
  }

  lemma PlainSamples()
    ensures Payload(Number(100)) == [164, 1]
    ensures Payload(Text([120])) == [2, 120, 0]
    ensures Payload(Blob([7])) == [1, 7]
    ensures Payload(ObjectType(1, 2)) == [1, 2]
    ensures Payload(ObjectId(1, 2, 3)) == [1, 2, 3]
  {
    assert Tail(1) == [1];
    assert Varint(100) == [100 % 64 + 128] + Tail(100 / 64) == [164, 1];
    assert Cut([120]) == [120] && Cut([7]) == [7];
  }

  lemma StructSample()
    ensures Document(ONE) == [154, 200, 103, 0, 1]
    ensures Payload(Struct(ONE)) == [154, 200, 103, 0, 1, 0]
  {
    HeaderSamples();
    hide Header;
    assert Cut(FLAG) == FLAG by { CutWhole(FLAG); }
    hide Cut;
    assert Document(ONE) == Header(FLAG, INTEGER) + Payload(Number(1)) + Document(Empty);
    assert Payload(Number(1)) == [1] && Document(Empty) == [];
  }

  lemma CutWhole(s: Bytes)
    requires 0 !in s
    ensures Cut(s) == s
  {}

  /** A list: the type of its items, their number, the items. */
  lemma ListSample()
    ensures Payload(List(1, false, Member([], Text([120]), Empty))) == [1, 1, 2, 120, 0]
  {
    PlainSamples();
    var items := Member([], Text([120]), Empty);
    OneItem(1, Text([120]));
    assert Payload(List(1, false, items)) == [1, 1] + ItemBytes(1, items, 1);
  }

  lemma OneItem(elem: byte, v: Value)
    ensures Count(Member([], v, Empty)) == 1
    ensures ItemBytes(elem, Member([], v, Empty), 1) == PayloadAs(elem, v)
  {
    assert Count(Empty) == 0 && ItemBytes(elem, Empty, 0) == [];
    hide PayloadAs;
  }

  /** In a stub list a marker comes before the items. */
  lemma StubSample()
    ensures Payload(List(3, true, Member([], Struct(ONE), Empty))) == [3, 1, 2, 154, 200, 103, 0, 1, 0]
  {
    StructSample();
    var items := Member([], Struct(ONE), Empty);
    OneItem(3, Struct(ONE));
    assert PayloadAs(3, Struct(ONE)) == Payload(Struct(ONE));
    hide ItemBytes, PayloadAs, Document;
    assert Payload(List(3, true, items)) == [3, 1] + ([2] + ItemBytes(3, items, 1));
  }

  /** A list of integers does not announce the type of its items. */
  lemma IntegersSample()
    ensures Payload(IntegerList(Member([], Number(5), Member([], Number(6), Empty)))) == [2, 5, 6]
  {
    var six := Member([], Number(6), Empty);
    var items := Member([], Number(5), six);
    OneItem(0, Number(6));
    assert Count(items) == 2;
    assert ItemBytes(0, items, 2) == PayloadAs(0, Number(5)) + ItemBytes(0, six, 1);
    assert PayloadAs(0, Number(5)) == [5] && PayloadAs(0, Number(6)) == [6];
    hide ItemBytes, PayloadAs;
    assert Payload(IntegerList(items)) == [2] + ItemBytes(0, items, 2);
  }

  /** A map: the types of its keys and values, the number of entries, each key before its value. */
  lemma MapSample()
    ensures Payload(Map(0, 1, Member([49], Text([120]), Empty))) == [0, 1, 1, 1, 2, 120, 0]
  {
    PlainSamples();
    var entries := Member([49], Text([120]), Empty);
    assert Count(entries) == 1 && Cut([49]) == [49] && DigitsValue([49]) == 1 by { assert DigitsValue([]) == 0; }
    assert KeyBytes(0, [49]) == [1];
    assert EntryBytes(0, 1, entries) == KeyBytes(0, [49]) + PayloadAs(1, Text([120])) + EntryBytes(0, 1, Empty);
    hide Document;
  }

  /** A union: the active member and its content, which an unset one has not. */
  lemma UnionSamples()
    ensures Payload(Union(2, ONE)) == [2, 154, 200, 103, 0, 1]
    ensures Payload(Union(0x7F, ONE)) == [0x7F]
  {
    StructSample();
    hide Document;
  }

  /** Items that stand for another type than their own: a string for an integer, a union or a map for a struct, a list
      for one of integers, an object name for its type. */
  lemma MixedSamples()
    ensures PayloadAs(0, Text([49, 48, 48])) == [164, 1]
    ensures PayloadAs(3, Union(2, ONE)) == PayloadAs(3, Map(0, 1, ONE)) == [154, 200, 103, 0, 1, 0]
    ensures PayloadAs(7, List(0, false, Member([], Number(5), Empty))) == [1, 5]
    ensures PayloadAs(8, ObjectId(1, 2, 3)) == [1, 2]
  {
    PlainSamples();
    StructSample();
    OneItem(0, Number(5));
    CutWhole([49, 48, 48]);
    HundredRead();
    hide Document, Cut, Parsed, Header;
  }

  lemma HundredRead()
    ensures Parsed([49, 48, 48]) == Some(100)
  {
    assert DigitsValue([]) == 0 && DigitsValue([49]) == 1;
    assert [49, 48][..1] == [49] && [49, 48, 48][..2] == [49, 48];
    assert DigitsValue([49, 48]) == 10;
  }

  /** The size of a list or a map is one byte: 256 items are announced as none, and those of a list are not written. */
  lemma FullLists(elem: byte, keyType: byte, valueType: byte, items: Members)
    requires Count(items) % 256 == 0
    ensures Payload(List(elem, false, items)) == [elem, 0]
    ensures Payload(IntegerList(items)) == [0]
    ensures Payload(Map(keyType, valueType, items))[..3] == [keyType, valueType, 0]
  {
    assert ItemBytes(elem, items, 0) == [] && ItemBytes(INTEGER, items, 0) == [];
    hide Document, EntryBytes;
  }

  // ----- a message

  /** A chat message: a map from 1 to "x", the flags 100 and a target. */
  lemma ChatMessage()
    ensures var ops := [Push(ATTR, MapKind(0, 1)), Put([49], Text([120])), Pop,
                        Put(FLAG, Number(100)), Put(TARG, ObjectId(1, 2, 3))];
      var r := ApplyAll([], Empty, ops);
      Document(Plug(r.0, r.1)) == [135, 77, 50, 5] + [0, 1, 1, 1, 2, 120, 0]
        + ([154, 200, 103, 0] + [164, 1] + [210, 28, 167, 9] + [1, 2, 3])
  {
    var flags := Member(FLAG, Number(100), Member(TARG, ObjectId(1, 2, 3), Empty));
    ChatBuilt();
    hide ApplyAll, Plug;
    ChatBytes(flags);
    FlagsBytes();
    hide Document;
  }

  lemma ChatBytes(rest: Members)
    ensures Document(Member(ATTR, Map(0, 1, Member([49], Text([120]), Empty)), rest)) ==
      [135, 77, 50, 5] + [0, 1, 1, 1, 2, 120, 0] + Document(rest)
  {
    HeaderSamples();
    MapSample();
    CutWhole(ATTR);
    hide Header, Cut, Payload;
  }

  lemma FlagsBytes()
    ensures Document(Member(FLAG, Number(100), Member(TARG, ObjectId(1, 2, 3), Empty))) ==
      [154, 200, 103, 0] + [164, 1] + [210, 28, 167, 9] + [1, 2, 3]
  {
    HeaderSamples();
    PlainSamples();
    CutWhole(FLAG);
    CutWhole(TARG);
    hide Header, Cut, Payload;
    var last := Member(TARG, ObjectId(1, 2, 3), Empty);
    assert Document(last) == [210, 28, 167, 9] + [1, 2, 3] + Document(Empty);
    assert Document(Empty) == [];
  }

  lemma ChatBuilt()
    ensures var ops := [Push(ATTR, MapKind(0, 1)), Put([49], Text([120])), Pop,
                        Put(FLAG, Number(100)), Put(TARG, ObjectId(1, 2, 3))];
      var r := ApplyAll([], Empty, ops);
      Plug(r.0, r.1) ==
        Member(ATTR, Map(0, 1, Member([49], Text([120]), Empty)),
               Member(FLAG, Number(100), Member(TARG, ObjectId(1, 2, 3), Empty)))
  {
    var flags := [Put(FLAG, Number(100)), Put(TARG, ObjectId(1, 2, 3))];
    var ops := [Push(ATTR, MapKind(0, 1)), Put([49], Text([120])), Pop, flags[0], flags[1]];
    var entry := Member([49], Text([120]), Empty);
    var attributes := Member(ATTR, Map(0, 1, entry), Empty);
    var body := [Put([49], Text([120]))];
    assert Snoc(Empty, [49], Text([120])) == entry;
    assert [Push(ATTR, MapKind(0, 1))] + body + [Pop] + flags == ops;
    BodyBuilt(body[0], entry);
    PushedAndPopped([], Empty, ATTR, MapKind(0, 1), body, entry, flags);
    FlagsBuilt(attributes);
    hide ApplyAll;
  }

  lemma BodyBuilt(op: Op, entry: Members)
    requires op == Put([49], Text([120])) && entry == Member([49], Text([120]), Empty)
    ensures var open := Apply([], Empty, Push(ATTR, MapKind(0, 1))).0; ApplyAll(open, Empty, [op]) == (open, entry)
  {
    var open := Apply([], Empty, Push(ATTR, MapKind(0, 1))).0;
    assert [op][1..] == [];
    assert Apply(open, Empty, op) == (open, entry);
  }

  lemma FlagsBuilt(done: Members)
    ensures ApplyAll([], done, [Put(FLAG, Number(100)), Put(TARG, ObjectId(1, 2, 3))]) ==
      ([], Snoc(Snoc(done, FLAG, Number(100)), TARG, ObjectId(1, 2, 3)))
  {
    var ops := [Put(FLAG, Number(100)), Put(TARG, ObjectId(1, 2, 3))];
    var one := Snoc(done, FLAG, Number(100));
    var two := Snoc(one, TARG, ObjectId(1, 2, 3));
    assert ops[1..] == [ops[1]] && [ops[1]][1..] == [];
    assert Apply([], done, ops[0]) == ([], one) && Apply([], one, ops[1]) == ([], two);
    assert ApplyAll([], two, []) == ([], two);
    assert ApplyAll([], one, [ops[1]]) == ApplyAll([], two, []);
  }
}
