/** The parser of blaze/tdf.cpp, over a byte buffer. Where `Parse` and its like succeed, the methods read what they
    say and leave the position where they say. */
module Readers {
  import opened Options
  import opened Buffers
  import opened Labels
  import opened Tdf

  method ReadInteger(buffer: DataBuffer) returns (v: Value)
    requires buffer.Valid() && ParseNumber(buffer.Rest()).Some?
    modifies buffer`position
    ensures Some((v, buffer.Rest())) == old(ParseNumber(buffer.Rest()))
  {
    var n := buffer.DecodeTdfInteger();
    v := Number(n);
  }

  method ReadString(buffer: DataBuffer) returns (v: Value)
    requires buffer.Valid() && ParseText(buffer.Rest()).Some?
    modifies buffer`position
    ensures Some((v, buffer.Rest())) == old(ParseText(buffer.Rest()))
  {
    hide ReadVarint;
    var n := buffer.DecodeTdfInteger();
    v := ReadChars(buffer, n - 1);
  }

  /** The characters of a string and the NUL after them. */
  method ReadChars(buffer: DataBuffer, length: nat) returns (v: Value)
    requires buffer.Valid() && length < |buffer.Rest()|
    modifies buffer`position
    ensures v == Text(old(buffer.Rest())[..length]) && buffer.Rest() == old(buffer.Rest())[length + 1..]
  {
    var str: Bytes := [];
    if length > 0 {
      str := buffer.Read(length);
    }
    buffer.Skip(1);
    v := Text(str);
  }

  method ReadBlob(buffer: DataBuffer) returns (v: Value)
    requires buffer.Valid() && ParseBlob(buffer.Rest()).Some?
    modifies buffer`position
    ensures Some((v, buffer.Rest())) == old(ParseBlob(buffer.Rest()))
  {
    var length := buffer.DecodeTdfInteger();
    var str := [];
    if length > 0 {
      str := buffer.Read(length);
    }
    v := Text(str);
  }

  method ReadObjectType(buffer: DataBuffer) returns (v: Value)
    requires buffer.Valid() && ParseObjectType(buffer.Rest()).Some?
    modifies buffer`position
    ensures Some((v, buffer.Rest())) == old(ParseObjectType(buffer.Rest()))
  {
    hide ReadVarint;
    NumbersStep(buffer.Rest(), 1);
    var x := buffer.DecodeTdfInteger();
    NumbersStep(buffer.Rest(), 0);
    var y := buffer.DecodeTdfInteger();
    v := ObjectType(x, y);
  }

  method ReadObjectId(buffer: DataBuffer) returns (v: Value)
    requires buffer.Valid() && ParseObjectId(buffer.Rest()).Some?
    modifies buffer`position
    ensures Some((v, buffer.Rest())) == old(ParseObjectId(buffer.Rest()))
  {
    hide ReadVarint;
    NumbersStep(buffer.Rest(), 2);
    var x := buffer.DecodeTdfInteger();
    NumbersStep(buffer.Rest(), 1);
    var y := buffer.DecodeTdfInteger();
    NumbersStep(buffer.Rest(), 0);
    var z := buffer.DecodeTdfInteger();
    v := ObjectId(x, y, z);
  }

  lemma NumbersStep(s: Bytes, n: nat)
    requires ParseNumbers(s, n + 1).Some?
    ensures ReadVarint(s).Some? && ParseNumbers(ReadVarint(s).value.1, n).Some?
    ensures var xs := ParseNumbers(ReadVarint(s).value.1, n).value;
      ParseNumbers(s, n + 1) == Some(([ReadVarint(s).value.0] + xs.0, xs.1))
  {}

  /** The byte at the position, if there is one below the capacity. */
  method NextIs(buffer: DataBuffer, b: byte) returns (yes: bool)
    requires buffer.Valid()
    ensures buffer.Rest() != [] ==> (yes <==> buffer.Rest()[0] == b)
    ensures buffer.Rest() == [] && b != 0 ==> !yes
  {
    var next := buffer.Peek(1);
    yes := next == [b];
    if next != [] {
      assert next == [buffer.buffer[buffer.position]];
      assert buffer.position < buffer.size ==> buffer.Rest()[0] == buffer.buffer[buffer.position];
    }
  }

  method ReadByte(buffer: DataBuffer) returns (b: byte)
    requires buffer.Valid() && buffer.Rest() != []
    modifies buffer`position
    ensures b == old(buffer.Rest())[0] && buffer.Rest() == old(buffer.Rest())[1..]
  {
    var data := buffer.Read(1);
    b := data[0];
  }

  method ReadLabel(data: Bytes) returns (name: Bytes)
    requires |data| >= 3
    ensures name == HeaderLabel(data)
  {
    var low: nat, mid: nat, high: nat := data[0], data[1], data[2];
    name := DecompressLabel(low + mid * 256 + high * 0x1_0000);
  }

  lemma LabelPrefix(s: Bytes, n: nat)
    requires 3 <= n <= |s|
    ensures HeaderLabel(s[..n]) == HeaderLabel(s)
  {
    hide Decompress;
    assert s[..n][0] == s[0] && s[..n][1] == s[1] && s[..n][2] == s[2];
  }

  method ReadHeader(buffer: DataBuffer) returns (name: Bytes, tag: byte)
    requires buffer.Valid() && |buffer.Rest()| >= 4
    modifies buffer`position
    ensures name == HeaderLabel(old(buffer.Rest())) && tag == old(buffer.Rest())[3]
    ensures buffer.Rest() == old(buffer.Rest())[4..]
  {
    hide HeaderLabel;
    LabelPrefix(buffer.Rest(), 4);
    var data := buffer.Read(4);
    tag := data[3];
    name := ReadLabel(data);
  }

  /** `ReadValue`: the value after the header is added to `parent`, unless the header is the end of the buffer. */
  method ReadMember(buffer: DataBuffer, parent: Members, listed: bool) returns (ms: Members)
    requires buffer.Valid() && ParseMember(buffer.Rest()).Some?
    modifies buffer`position
    ensures var m := old(ParseMember(buffer.Rest())).value;
      ms == AddedMember(parent, listed, m.0) && buffer.Rest() == m.1
    decreases |buffer.Rest()|, 0
  {
    hide Parse, HeaderLabel;
    var name, tag := ReadHeader(buffer);
    var eof := buffer.Eof();
    if eof {
      return parent;
    }
    var v := ReadValue(buffer, tag);
    ms := Added(parent, listed, name, v);
  }

  method ReadValue(buffer: DataBuffer, tag: byte) returns (v: Value)
    requires buffer.Valid() && Parse(tag, buffer.Rest()).Some?
    modifies buffer`position
    ensures Some((v, buffer.Rest())) == old(Parse(tag, buffer.Rest()))
    decreases |buffer.Rest()|, 3
  {
    hide ParseNumber, ParseText, ParseBlob, ParseStruct, ParseList, ParseMap, ParseUnion, ParseIntegerList,
      ParseObjectType, ParseObjectId;
    if tag == INTEGER {
      v := ReadInteger(buffer);
    } else if tag == STRING {
      v := ReadString(buffer);
    } else if tag == BINARY {
      v := ReadBlob(buffer);
    } else if tag == STRUCT {
      v := ReadStruct(buffer);
    } else if tag == LIST {
      v := ReadList(buffer);
    } else if tag == MAP {
      v := ReadMap(buffer);
    } else if tag == UNION {
      v := ReadUnion(buffer);
    } else if tag == INTEGER_LIST {
      v := ReadIntegerList(buffer);
    } else if tag == OBJECT_TYPE {
      v := ReadObjectType(buffer);
    } else {
      v := ReadObjectId(buffer);
    }
  }

  /** Members up to the terminator. */
  method ReadMembers(buffer: DataBuffer, listed: bool) returns (ms: Members)
    requires buffer.Valid() && ParseMembers(buffer.Rest(), Empty, listed).Some?
    modifies buffer`position
    ensures Some((ms, buffer.Rest())) == old(ParseMembers(buffer.Rest(), Empty, listed))
    decreases |buffer.Rest()|, 1
  {
    hide ParseMember, AddedMember;
    ghost var s := buffer.Rest();
    ms := Empty;
    var end := NextIs(buffer, 0);
    while !end
      invariant buffer.Valid() && |buffer.Rest()| <= |s|
      invariant ParseMembers(buffer.Rest(), ms, listed) == ParseMembers(s, Empty, listed)
      invariant buffer.Rest() != [] && (end <==> buffer.Rest()[0] == 0)
      decreases |buffer.Rest()|
    {
      ms := ReadMember(buffer, ms, listed);
      end := NextIs(buffer, 0);
    }
    buffer.Skip(1);
  }

  method ReadStruct(buffer: DataBuffer) returns (v: Value)
    requires buffer.Valid() && ParseStruct(buffer.Rest()).Some?
    modifies buffer`position
    ensures Some((v, buffer.Rest())) == old(ParseStruct(buffer.Rest()))
    decreases |buffer.Rest()|, 2
  {
    hide ParseMembers;
    var ms := ReadMembers(buffer, false);
    v := Struct(ms);
  }

  method ReadUnion(buffer: DataBuffer) returns (v: Value)
    requires buffer.Valid() && ParseUnion(buffer.Rest()).Some?
    modifies buffer`position
    ensures Some((v, buffer.Rest())) == old(ParseUnion(buffer.Rest()))
    decreases |buffer.Rest()|, 2
  {
    hide ParseMember;
    var which := ReadByte(buffer);
    var ms := Empty;
    if which != UNSET {
      ms := ReadMember(buffer, Empty, false);
    }
    v := Union(which, ms);
  }

  method ReadList(buffer: DataBuffer) returns (v: Value)
    requires buffer.Valid() && ParseList(buffer.Rest()).Some?
    modifies buffer`position
    ensures Some((v, buffer.Rest())) == old(ParseList(buffer.Rest()))
    decreases |buffer.Rest()|, 2
  {
    hide ParseMembers, ParseItems;
    var elem := ReadByte(buffer);
    var size := ReadByte(buffer);
    var stub := NextIs(buffer, 2);
    var ms;
    if stub && elem == STRUCT {
      buffer.Skip(1);
      ms := ReadMembers(buffer, true);
      v := List(elem, true, ms);
    } else {
      ms := ReadItems(buffer, elem, size);
      v := List(elem, false, ms);
    }
  }

  method ReadItems(buffer: DataBuffer, elem: byte, n: nat) returns (ms: Members)
    requires buffer.Valid() && ParseItems(elem, buffer.Rest(), n, Empty).Some?
    modifies buffer`position
    ensures Some((ms, buffer.Rest())) == old(ParseItems(elem, buffer.Rest(), n, Empty))
    decreases |buffer.Rest()|, 4
  {
    hide Parse;
    ghost var s := buffer.Rest();
    ms := Empty;
    var i := 0;
    while i < n
      invariant i <= n && buffer.Valid() && |buffer.Rest()| <= |s|
      invariant ParseItems(elem, buffer.Rest(), n - i, ms) == ParseItems(elem, s, n, Empty)
    {
      if elem in {INTEGER, STRING, STRUCT} {
        var v := ReadValue(buffer, elem);
        ms := Snoc(ms, [], v);
      }
      i := i + 1;
    }
  }

  method ReadKey(buffer: DataBuffer, keyType: byte) returns (key: Bytes)
    requires buffer.Valid() && ParseKey(keyType, buffer.Rest()).Some?
    modifies buffer`position
    ensures var k := old(ParseKey(keyType, buffer.Rest())).value; key == KeyText(k.0) && buffer.Rest() == k.1
  {
    hide ParseNumber, ParseText;
    var v;
    if keyType == INTEGER {
      v := ReadInteger(buffer);
    } else {
      v := ReadString(buffer);
    }
    key := KeyText(v);
  }

  method ReadMap(buffer: DataBuffer) returns (v: Value)
    requires buffer.Valid() && ParseMap(buffer.Rest()).Some?
    modifies buffer`position
    ensures Some((v, buffer.Rest())) == old(ParseMap(buffer.Rest()))
    decreases |buffer.Rest()|, 2
  {
    hide ParseEntries;
    var keyType := ReadByte(buffer);
    var valueType := ReadByte(buffer);
    var size := ReadByte(buffer);
    var ms := ReadEntries(buffer, keyType, valueType, size);
    v := Map(keyType, valueType, ms);
  }

  method ReadEntries(buffer: DataBuffer, keyType: byte, valueType: byte, n: nat) returns (ms: Members)
    requires buffer.Valid() && ParseEntries(keyType, valueType, buffer.Rest(), n, Empty).Some?
    modifies buffer`position
    ensures Some((ms, buffer.Rest())) == old(ParseEntries(keyType, valueType, buffer.Rest(), n, Empty))
    decreases |buffer.Rest()|, 4
  {
    hide Parse, ParseKey, KeyText;
    ghost var s := buffer.Rest();
    ms := Empty;
    var i := 0;
    while i < n
      invariant i <= n && buffer.Valid() && |buffer.Rest()| <= |s|
      invariant ParseEntries(keyType, valueType, buffer.Rest(), n - i, ms) ==
        ParseEntries(keyType, valueType, s, n, Empty)
    {
      var key := ReadKey(buffer, keyType);
      var v := ReadValue(buffer, valueType);
      ms := Snoc(ms, key, v);
      i := i + 1;
    }
  }

  method ReadIntegerList(buffer: DataBuffer) returns (v: Value)
    requires buffer.Valid() && ParseIntegerList(buffer.Rest()).Some?
    modifies buffer`position
    ensures Some((v, buffer.Rest())) == old(ParseIntegerList(buffer.Rest()))
    decreases |buffer.Rest()|, 2
  {
    hide ParseItems;
    var size := ReadByte(buffer);
    var ms := ReadItems(buffer, INTEGER, size);
    v := IntegerList(ms);
  }

  class Parser {
    var document: Members

    constructor ()
      ensures document == Empty
    {
      document := Empty;
    }

    /** `Read`: the document is read anew, up to the end of the buffer. */
    method Read(buffer: DataBuffer)
      requires buffer.Valid() && ParseDocument(buffer.Rest(), Empty).Some?
      modifies this, buffer`position
      ensures Some(document) == old(ParseDocument(buffer.Rest(), Empty)) && buffer.Rest() == []
    {
      hide ParseMember;
      ghost var s := buffer.Rest();
      document := Empty;
      var eof := buffer.Eof();
      while !eof
        invariant buffer.Valid() && (eof <==> buffer.Rest() == [])
        invariant ParseDocument(buffer.Rest(), document) == ParseDocument(s, Empty)
        decreases |buffer.Rest()|
      {
        document := ReadMember(buffer, document, false);
        eof := buffer.Eof();
      }
    }
  }
}
