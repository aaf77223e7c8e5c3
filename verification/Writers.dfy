/** The packet writer of blaze/tdf.cpp, over a byte buffer. */
module Writers {
  import opened Options
  import opened Buffers
  import opened Labels
  import opened Tdf

  /** Since the contents were `c` and the position `p`, the bytes in `done` have been written. */
  ghost predicate Wrote(buffer: DataBuffer, c: Bytes, p: nat, done: Bytes)
    reads buffer
  {
    && buffer.Valid() && p <= |c| && buffer.position == p + |done| && buffer.position <= buffer.size
    && buffer.Contents() == Over(c, p, done)
  }

  lemma WroteNothing(buffer: DataBuffer)
    requires buffer.Valid() && buffer.position <= buffer.size
    ensures Wrote(buffer, buffer.Contents(), buffer.position, [])
  {
    var c, p := buffer.Contents(), buffer.position;
    assert Over(c, p, []) == c;
  }

  method WriteBytes(buffer: DataBuffer, data: Bytes, ghost c: Bytes, ghost p: nat, ghost done: Bytes)
    requires Wrote(buffer, c, p, done)
    modifies buffer
    ensures Wrote(buffer, c, p, done + data)
  {
    OverTwice(c, p, done, data);
    buffer.Write(data);
  }

  method WriteInteger(buffer: DataBuffer, n: nat, ghost c: Bytes, ghost p: nat, ghost done: Bytes)
    requires Wrote(buffer, c, p, done)
    modifies buffer
    ensures Wrote(buffer, c, p, done + Varint(n))
  {
    OverTwice(c, p, done, Varint(n));
    buffer.EncodeTdfInteger(n);
  }

  /** The packed label below, the type in the highest byte, lowest byte first. */
  method WriteHeader(buffer: DataBuffer, name: Bytes, tag: byte, ghost c: Bytes, ghost p: nat, ghost done: Bytes)
    requires Wrote(buffer, c, p, done)
    modifies buffer
    ensures Wrote(buffer, c, p, done + Header(name, tag))
  {
    hide Wrote;
    var v := CompressLabel(name);
    WriteBytes(buffer, [v % 256, v / 256 % 256, v / 0x1_0000, tag], c, p, done);
  }

  method WriteText(buffer: DataBuffer, s: Bytes, ghost c: Bytes, ghost p: nat, ghost done: Bytes)
    requires Wrote(buffer, c, p, done)
    modifies buffer
    ensures Wrote(buffer, c, p, done + TextBytes(s))
  {
    hide Wrote, Varint, Cut;
    var str := Cut(s);
    WriteInteger(buffer, |str| + 1, c, p, done);
    WriteBytes(buffer, str, c, p, done + Varint(|str| + 1));
    WriteBytes(buffer, [0], c, p, done + Varint(|str| + 1) + str);
    assert done + Varint(|str| + 1) + str + [0] == done + (Varint(|str| + 1) + str + [0]);
  }

  method WriteKey(buffer: DataBuffer, keyType: byte, name: Bytes, ghost c: Bytes, ghost p: nat, ghost done: Bytes)
    requires Wrote(buffer, c, p, done)
    modifies buffer
    ensures Wrote(buffer, c, p, done + KeyBytes(keyType, name))
  {
    hide Wrote, Varint, TextBytes;
    if keyType == INTEGER {
      var key := Parsed(Cut(name));
      WriteInteger(buffer, if key.Some? then key.value else 0, c, p, done);
    } else {
      WriteText(buffer, name, c, p, done);
    }
  }

  /** `WriteType` without its header. */
  method WriteValue(buffer: DataBuffer, v: Value, ghost c: Bytes, ghost p: nat, ghost done: Bytes)
    requires Wrote(buffer, c, p, done)
    modifies buffer
    ensures Wrote(buffer, c, p, done + Payload(v))
    decreases v, 1
  {
    hide Wrote, Varint, TextBytes, Cut, Document, ItemBytes, EntryBytes;
    match v
    case Number(n) => WriteInteger(buffer, n, c, p, done);
    case Text(s) => WriteText(buffer, s, c, p, done);
    case Blob(s) =>
      WriteInteger(buffer, |Cut(s)|, c, p, done);
      WriteBytes(buffer, Cut(s), c, p, done + Varint(|Cut(s)|));
      assert done + Varint(|Cut(s)|) + Cut(s) == done + (Varint(|Cut(s)|) + Cut(s));
    case Struct(ms) =>
      WriteMembers(buffer, ms, c, p, done);
      WriteBytes(buffer, [0], c, p, done + Document(ms));
      assert done + Document(ms) + [0] == done + (Document(ms) + [0]);
    case List(_, _, _) => WriteList(buffer, v, c, p, done);
    case Map(keyType, valueType, entries) =>
      ghost var head := [keyType, valueType, Count(entries) % 256];
      WriteBytes(buffer, [keyType, valueType, Count(entries) % 256], c, p, done);
      WriteEntries(buffer, keyType, valueType, entries, c, p, done + head);
      assert done + head + EntryBytes(keyType, valueType, entries) ==
        done + (head + EntryBytes(keyType, valueType, entries));
    case Union(which, ms) =>
      WriteBytes(buffer, [which], c, p, done);
      if which != UNSET {
        WriteMembers(buffer, ms, c, p, done + [which]);
        assert done + [which] + Document(ms) == done + ([which] + Document(ms));
      } else {
        assert done + [which] == done + ([which] + []);
      }
    case IntegerList(items) =>
      ghost var head := [Count(items) % 256];
      WriteBytes(buffer, [Count(items) % 256], c, p, done);
      WriteItems(buffer, INTEGER, items, Count(items) % 256, c, p, done + head);
      assert done + head + ItemBytes(INTEGER, items, Count(items) % 256) ==
        done + (head + ItemBytes(INTEGER, items, Count(items) % 256));
    case ObjectType(x, y) =>
      WriteInteger(buffer, x, c, p, done);
      WriteInteger(buffer, y, c, p, done + Varint(x));
      assert done + Varint(x) + Varint(y) == done + (Varint(x) + Varint(y));
    case ObjectId(x, y, z) =>
      WriteInteger(buffer, x, c, p, done);
      WriteInteger(buffer, y, c, p, done + Varint(x));
      WriteInteger(buffer, z, c, p, done + Varint(x) + Varint(y));
      assert done + Varint(x) + Varint(y) + Varint(z) == done + (Varint(x) + Varint(y) + Varint(z));
  }

  /** `WriteType` for an item of a list or a map, of the announced type. */
  method WriteAs(buffer: DataBuffer, tag: byte, v: Value, ghost c: Bytes, ghost p: nat, ghost done: Bytes)
    requires Wrote(buffer, c, p, done)
    modifies buffer
    ensures Wrote(buffer, c, p, done + PayloadAs(tag, v))
    decreases v, 2
  {
    hide Wrote, Varint, Document, ItemBytes, Payload, KeyBytes;
    if tag == INTEGER && v.Text? {
      WriteKey(buffer, INTEGER, v.s, c, p, done);
    } else if tag == STRUCT && (v.Union? || v.Map?) {
      var ms := if v.Union? then v.members else v.entries;
      WriteMembers(buffer, ms, c, p, done);
      WriteBytes(buffer, [0], c, p, done + Document(ms));
      assert done + Document(ms) + [0] == done + (Document(ms) + [0]);
    } else if tag == INTEGER_LIST && v.List? {
      ghost var head := [Count(v.items) % 256];
      WriteBytes(buffer, [Count(v.items) % 256], c, p, done);
      WriteItems(buffer, INTEGER, v.items, Count(v.items) % 256, c, p, done + head);
      ghost var tail := ItemBytes(INTEGER, v.items, Count(v.items) % 256);
      assert done + head + tail == done + (head + tail);
    } else if tag == OBJECT_TYPE && v.ObjectId? {
      WriteInteger(buffer, v.x, c, p, done);
      WriteInteger(buffer, v.y, c, p, done + Varint(v.x));
      assert done + Varint(v.x) + Varint(v.y) == done + (Varint(v.x) + Varint(v.y));
    } else {
      WriteValue(buffer, v, c, p, done);
    }
  }

  /** A stub list writes the marker and then all its items, any other list as many as its size byte says. */
  method WriteList(buffer: DataBuffer, v: Value, ghost c: Bytes, ghost p: nat, ghost done: Bytes)
    requires Wrote(buffer, c, p, done) && v.List?
    modifies buffer
    ensures Wrote(buffer, c, p, done + Payload(v))
    decreases v, 0
  {
    hide Wrote, ItemBytes;
    var size := Count(v.items) % 256;
    ghost var head := [v.elem, size];
    WriteBytes(buffer, [v.elem, size], c, p, done);
    if v.stub {
      WriteBytes(buffer, [2], c, p, done + head);
      WriteItems(buffer, v.elem, v.items, Count(v.items), c, p, done + head + [2]);
      assert done + head + [2] + ItemBytes(v.elem, v.items, Count(v.items)) ==
        done + (head + ([2] + ItemBytes(v.elem, v.items, Count(v.items))));
    } else {
      WriteItems(buffer, v.elem, v.items, size, c, p, done + head);
      assert done + head + ItemBytes(v.elem, v.items, size) == done + (head + ItemBytes(v.elem, v.items, size));
    }
  }

  /** `Write` for every member of an object. */
  method WriteMembers(buffer: DataBuffer, members: Members, ghost c: Bytes, ghost p: nat, ghost done: Bytes)
    requires Wrote(buffer, c, p, done)
    modifies buffer
    ensures Wrote(buffer, c, p, done + Document(members))
    decreases members, 0
  {
    hide Wrote, Header, Payload, Cut;
    var ms := members;
    ghost var now := done;
    while ms.Member?
      invariant ms == members || ms < members
      invariant Wrote(buffer, c, p, now)
      invariant now + Document(ms) == done + Document(members)
      decreases ms
    {
      DocumentStep(now, ms);
      WriteHeader(buffer, Cut(ms.name), Tag(ms.value), c, p, now);
      now := now + Header(Cut(ms.name), Tag(ms.value));
      WriteValue(buffer, ms.value, c, p, now);
      now := now + Payload(ms.value);
      ms := ms.rest;
    }
    assert now + [] == now;
  }

  lemma DocumentStep(now: Bytes, ms: Members)
    requires ms.Member?
    ensures now + Document(ms) == now + Header(Cut(ms.name), Tag(ms.value)) + Payload(ms.value) + Document(ms.rest)
  {
    hide Header, Payload, Cut;
  }

  lemma ItemsStep(now: Bytes, elem: byte, ms: Members, n: nat)
    requires ms.Member? && n > 0
    ensures now + ItemBytes(elem, ms, n) == now + PayloadAs(elem, ms.value) + ItemBytes(elem, ms.rest, n - 1)
  {
    hide PayloadAs;
  }

  lemma EntriesStep(now: Bytes, keyType: byte, valueType: byte, ms: Members)
    requires ms.Member?
    ensures now + EntryBytes(keyType, valueType, ms) ==
      now + KeyBytes(keyType, ms.name) + PayloadAs(valueType, ms.value) + EntryBytes(keyType, valueType, ms.rest)
  {
    hide PayloadAs, KeyBytes;
  }

  /** The first `n` items of a list. */
  method WriteItems(buffer: DataBuffer, elem: byte, items: Members, n: nat, ghost c: Bytes, ghost p: nat,
                    ghost done: Bytes)
    requires Wrote(buffer, c, p, done) && n <= Count(items)
    modifies buffer
    ensures Wrote(buffer, c, p, done + ItemBytes(elem, items, n))
    decreases items, 0
  {
    hide Wrote, PayloadAs;
    var ms, i := items, 0;
    ghost var now := done;
    while i < n
      invariant ms == items || ms < items
      invariant i <= n && n - i <= Count(ms)
      invariant Wrote(buffer, c, p, now)
      invariant now + ItemBytes(elem, ms, n - i) == done + ItemBytes(elem, items, n)
    {
      ItemsStep(now, elem, ms, n - i);
      WriteAs(buffer, elem, ms.value, c, p, now);
      now := now + PayloadAs(elem, ms.value);
      ms, i := ms.rest, i + 1;
    }
    assert ItemBytes(elem, ms, 0) == [] && now + [] == now;
  }

  method WriteEntries(buffer: DataBuffer, keyType: byte, valueType: byte, entries: Members, ghost c: Bytes,
                      ghost p: nat, ghost done: Bytes)
    requires Wrote(buffer, c, p, done)
    modifies buffer
    ensures Wrote(buffer, c, p, done + EntryBytes(keyType, valueType, entries))
    decreases entries, 0
  {
    hide Wrote, PayloadAs, KeyBytes;
    var ms := entries;
    ghost var now := done;
    while ms.Member?
      invariant ms == entries || ms < entries
      invariant Wrote(buffer, c, p, now)
      invariant now + EntryBytes(keyType, valueType, ms) == done + EntryBytes(keyType, valueType, entries)
      decreases ms
    {
      EntriesStep(now, keyType, valueType, ms);
      WriteKey(buffer, keyType, ms.name, c, p, now);
      now := now + KeyBytes(keyType, ms.name);
      WriteAs(buffer, valueType, ms.value, c, p, now);
      now := now + PayloadAs(valueType, ms.value);
      ms := ms.rest;
    }
    assert now + [] == now;
  }
}
