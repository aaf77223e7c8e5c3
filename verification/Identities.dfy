/** Which documents are read back unchanged. */
module Identities {
  import opened Options
  import opened Buffers
  import opened Labels
  import opened Tdf
  import opened RoundTrips

  /** No blob, no stub list, no NUL; labels of up to four characters from 0x40 to 0x5F, distinct in each struct;
      nameless list items; nothing in an unset union. */
  predicate Plain(v: Value)
    decreases v
  {
    match v
    case Number(_) => true
    case Text(s) => 0 !in s
    case Blob(_) => false
    case Struct(ms) => PlainMembers(ms) && Apart(ms)
    case List(_, stub, items) => !stub && PlainItems(items)
    case Map(_, _, entries) => PlainEntries(entries)
    case Union(which, ms) => if which == UNSET then ms == Empty else PlainMembers(ms)
    case IntegerList(items) => PlainItems(items)
    case ObjectType(_, _) => true
    case ObjectId(_, _, _) => true
  }

  predicate PlainLabel(name: Bytes)
  {
    |name| <= 4 && forall c <- name :: 0x40 <= c < 0x60
  }

  predicate PlainMembers(ms: Members)
    decreases ms
  {
    match ms
    case Empty => true
    case Member(name, v, rest) => PlainLabel(name) && Plain(v) && PlainMembers(rest)
  }

  predicate PlainItems(ms: Members)
    decreases ms
  {
    match ms
    case Empty => true
    case Member(name, v, rest) => name == [] && Plain(v) && PlainItems(rest)
  }

  predicate PlainEntries(ms: Members)
    decreases ms
  {
    match ms
    case Empty => true
    case Member(name, v, rest) => 0 !in name && Plain(v) && PlainEntries(rest)
  }

  function Names(ms: Members): set<Bytes>
  {
    match ms
    case Empty => {}
    case Member(name, _, rest) => {name} + Names(rest)
  }

  /** The names are distinct. */
  predicate Apart(ms: Members)
  {
    match ms
    case Empty => true
    case Member(name, _, rest) => name !in Names(rest) && Apart(rest)
  }

  // ----- members

  function Append(ms: Members, ns: Members): Members
  {
    match ms
    case Empty => ns
    case Member(name, v, rest) => Member(name, v, Append(rest, ns))
  }

  /** The members read back one by one, with duplicates. */
  function Mapped(ms: Members): Members
    decreases ms
  {
    match ms
    case Empty => Empty
    case Member(name, v, rest) => Member(Normal(Cut(name)), Reread(v), Mapped(rest))
  }

  lemma {:induction false} UpsertNew(ms: Members, name: Bytes, v: Value)
    requires name !in Names(ms)
    ensures Upsert(ms, name, v) == Append(ms, Member(name, v, Empty))
    ensures Names(Upsert(ms, name, v)) == Names(ms) + {name}
    ensures Count(Upsert(ms, name, v)) == Count(ms) + 1
  {
    if ms.Member? { UpsertNew(ms.rest, name, v); }
  }

  lemma {:induction false} UpsertOld(ms: Members, name: Bytes, v: Value)
    requires name in Names(ms)
    ensures Names(Upsert(ms, name, v)) == Names(ms)
    ensures Count(Upsert(ms, name, v)) == Count(ms)
  {
    if ms.name != name { UpsertOld(ms.rest, name, v); }
  }

  lemma {:induction false} AppendAssoc(a: Members, b: Members, c: Members)
    ensures Append(Append(a, b), c) == Append(a, Append(b, c))
  {
    if a.Member? { AppendAssoc(a.rest, b, c); }
  }

  lemma {:induction false} SnocAppend(ms: Members, name: Bytes, v: Value)
    ensures Snoc(ms, name, v) == Append(ms, Member(name, v, Empty))
  {
    if ms.Member? { SnocAppend(ms.rest, name, v); }
  }

  lemma {:induction false} AppendEmpty(ms: Members)
    ensures Append(ms, Empty) == ms
    ensures Append(Empty, ms) == ms
  {
    if ms.Member? { AppendEmpty(ms.rest); }
  }

  /** Merging members keeps them all exactly when no two of the normalised labels clash. */
  lemma {:induction false} MergedIff(ms: Members, done: Members)
    ensures Apart(Mapped(ms)) && Names(Mapped(ms)) !! Names(done) ==>
      Merged(ms, done, false) == Append(done, Mapped(ms))
    ensures !(Apart(Mapped(ms)) && Names(Mapped(ms)) !! Names(done)) ==>
      Count(Merged(ms, done, false)) < Count(done) + Count(ms)
    ensures Count(Merged(ms, done, false)) <= Count(done) + Count(ms)
  {
    hide Normal, Cut, Reread;
    if ms.Empty? {
      AppendEmpty(done);
    } else {
      var name, v := Normal(Cut(ms.name)), Reread(ms.value);
      var next := Upsert(done, name, v);
      MergedIff(ms.rest, next);
      if name in Names(done) {
        UpsertOld(done, name, v);
      } else {
        UpsertNew(done, name, v);
        AppendAssoc(done, Member(name, v, Empty), Mapped(ms.rest));
      }
    }
  }

  lemma {:induction false} CountMapped(ms: Members)
    ensures Count(Mapped(ms)) == Count(ms)
  {
    if ms.Member? { CountMapped(ms.rest); }
  }

  /** The items of a list come back in their order. */
  lemma {:induction false} ItemsMapped(ms: Members, done: Members)
    ensures RereadItems(ms, done) == Append(done, Nameless(ms))
  {
    if ms.Empty? {
      AppendEmpty(done);
    } else {
      SnocAppend(done, [], Reread(ms.value));
      ItemsMapped(ms.rest, Snoc(done, [], Reread(ms.value)));
      AppendAssoc(done, Member([], Reread(ms.value), Empty), Nameless(ms.rest));
    }
  }

  function Nameless(ms: Members): Members
    decreases ms
  {
    match ms
    case Empty => Empty
    case Member(_, v, rest) => Member([], Reread(v), Nameless(rest))
  }

  function Keyed(ms: Members): Members
    decreases ms
  {
    match ms
    case Empty => Empty
    case Member(name, v, rest) => Member(Cut(name), Reread(v), Keyed(rest))
  }

  lemma {:induction false} EntriesMapped(ms: Members, done: Members)
    ensures RereadEntries(ms, done) == Append(done, Keyed(ms))
  {
    hide Cut;
    if ms.Empty? {
      AppendEmpty(done);
    } else {
      SnocAppend(done, Cut(ms.name), Reread(ms.value));
      EntriesMapped(ms.rest, Snoc(done, Cut(ms.name), Reread(ms.value)));
      AppendAssoc(done, Member(Cut(ms.name), Reread(ms.value), Empty), Keyed(ms.rest));
    }
  }

  // ----- a stub list never comes back as it was: what is read is smaller

  function Size(v: Value): nat
    decreases v
  {
    match v
    case Struct(ms) => 1 + SizeAll(ms)
    case List(_, _, items) => 1 + SizeAll(items)
    case Map(_, _, entries) => 1 + SizeAll(entries)
    case Union(_, ms) => 1 + SizeAll(ms)
    case IntegerList(items) => 1 + SizeAll(items)
    case _ => 1
  }

  function SizeAll(ms: Members): nat
    decreases ms
  {
    match ms
    case Empty => 0
    case Member(_, v, rest) => 1 + Size(v) + SizeAll(rest)
  }

  lemma {:induction false} AddedSize(ms: Members, listed: bool, name: Bytes, v: Value)
    ensures SizeAll(Added(ms, listed, name, v)) <= SizeAll(ms) + 1 + Size(v)
  {
    SnocSize(ms, name, v);
    SnocSize(ms, [], v);
    if ms.Member? { AddedSize(ms.rest, false, name, v); }
  }

  lemma {:induction false} SnocSize(ms: Members, name: Bytes, v: Value)
    ensures SizeAll(Snoc(ms, name, v)) == SizeAll(ms) + 1 + Size(v)
  {
    if ms.Member? { SnocSize(ms.rest, name, v); }
  }

  lemma {:induction false} RereadSize(v: Value)
    ensures Size(Reread(v)) <= Size(v)
    ensures v.List? && v.stub && v.items.Member? && v.items.value.Struct? ==> Size(Reread(v)) < Size(v)
    decreases v
  {
    match v
    case Struct(ms) => MergedSize(ms, Empty, false);
    case List(_, stub, items) =>
      if stub && items.Member? && items.value.Struct? {
        var ms := items.value.members;
        MergedSize(ms, Empty, true);
        assert SizeAll(items) == 1 + Size(items.value) + SizeAll(items.rest) && Size(items.value) == 1 + SizeAll(ms);
        assert Reread(v).List? && Reread(v).items == Merged(ms, Empty, true);
      } else {
        ItemsSize(items, Empty);
      }
    case Map(_, _, entries) => EntriesSize(entries, Empty);
    case Union(_, ms) => MergedSize(ms, Empty, false);
    case IntegerList(items) => ItemsSize(items, Empty);
    case Number(_) => assert Reread(v) == v;
    case Text(_) => assert Reread(v).Text?;
    case Blob(_) => assert Reread(v).Text?;
    case ObjectType(_, _) => assert Reread(v) == v;
    case ObjectId(_, _, _) => assert Reread(v) == v;
  }

  lemma {:induction false} MergedSize(ms: Members, done: Members, listed: bool)
    ensures SizeAll(Merged(ms, done, listed)) <= SizeAll(done) + SizeAll(ms)
    decreases ms
  {
    hide Normal, Cut;
    if ms.Member? {
      RereadSize(ms.value);
      AddedSize(done, listed, Normal(Cut(ms.name)), Reread(ms.value));
      MergedSize(ms.rest, Added(done, listed, Normal(Cut(ms.name)), Reread(ms.value)), listed);
    }
  }

  lemma {:induction false} ItemsSize(ms: Members, done: Members)
    ensures SizeAll(RereadItems(ms, done)) <= SizeAll(done) + SizeAll(ms)
    decreases ms
  {
    if ms.Member? {
      RereadSize(ms.value);
      SnocSize(done, [], Reread(ms.value));
      ItemsSize(ms.rest, Snoc(done, [], Reread(ms.value)));
    }
  }

  lemma {:induction false} EntriesSize(ms: Members, done: Members)
    ensures SizeAll(RereadEntries(ms, done)) <= SizeAll(done) + SizeAll(ms)
    decreases ms
  {
    hide Cut;
    if ms.Member? {
      RereadSize(ms.value);
      SnocSize(done, Cut(ms.name), Reread(ms.value));
      EntriesSize(ms.rest, Snoc(done, Cut(ms.name), Reread(ms.value)));
    }
  }

  // ----- the exact condition

  lemma LabelPlain(name: Bytes)
    ensures Normal(Cut(name)) == name <==> PlainLabel(name)
  {
    if Normal(Cut(name)) == name {
      assert |Cut(name)| == |name| ==> Cut(name) == name;
      NormalIff(name);
    }
    if PlainLabel(name) {
      assert Cut(name) == name;
      NormalIff(name);
    }
  }

  /** A printed value is read back unchanged exactly when it is plain. */
  lemma {:induction false} RereadIdentity(v: Value)
    requires Writable(v)
    ensures Reread(v) == v <==> Plain(v)
    decreases v
  {
    hide Normal, Cut, WritableKey;
    match v
    case Struct(ms) => MembersIdentity(ms);
    case List(elem, stub, items) =>
      if stub {
        CountOne(items);
        RereadSize(v);
      } else {
        ItemsIdentity(elem, items);
        ItemsMapped(items, Empty);
      }
    case Map(keyType, valueType, entries) =>
      EntriesIdentity(keyType, valueType, entries);
      EntriesMapped(entries, Empty);
    case Union(which, ms) =>
      if which != UNSET {
        CountOne(ms);
        MembersIdentity(ms);
        assert Names(ms.rest) == {};
      }
    case IntegerList(items) =>
      ItemsIdentity(INTEGER, items);
      ItemsMapped(items, Empty);
    case _ =>
  }

  lemma {:induction false} MembersIdentity(ms: Members)
    requires WritableMembers(ms)
    ensures Merged(ms, Empty, false) == ms <==> PlainMembers(ms) && Apart(ms)
    decreases ms, 1
  {
    MappedIdentity(ms);
    MergedIff(ms, Empty);
    CountMapped(ms);
  }

  lemma {:induction false} MappedIdentity(ms: Members)
    requires WritableMembers(ms)
    ensures Mapped(ms) == ms <==> PlainMembers(ms)
    decreases ms, 0
  {
    hide Normal, Cut, PlainLabel, Plain;
    if ms.Member? {
      LabelPlain(ms.name);
      RereadIdentity(ms.value);
      MappedIdentity(ms.rest);
    }
  }

  lemma {:induction false} ItemsIdentity(elem: byte, ms: Members)
    requires WritableItems(elem, ms)
    ensures Nameless(ms) == ms <==> PlainItems(ms)
    decreases ms
  {
    if ms.Member? {
      RereadIdentity(ms.value);
      ItemsIdentity(elem, ms.rest);
    }
  }

  lemma {:induction false} EntriesIdentity(keyType: byte, valueType: byte, ms: Members)
    requires WritableEntries(keyType, valueType, ms)
    ensures Keyed(ms) == ms <==> PlainEntries(ms)
    decreases ms
  {
    hide WritableKey;
    if ms.Member? {
      RereadIdentity(ms.value);
      EntriesIdentity(keyType, valueType, ms.rest);
    }
  }

  /** The round trip of a whole document. */
  lemma DocumentIdentity(ms: Members)
    requires WritableMembers(ms)
    ensures ParseDocument(Document(ms), Empty) == Some(ms) <==> PlainMembers(ms) && Apart(ms)
  {
    DocumentRound(ms, Empty);
    MembersIdentity(ms);
  }
}
