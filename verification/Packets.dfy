/** The packet builder of blaze/tdf.cpp: a document, and a stack of references into it. */
module Packets {
  import opened Options
  import opened Buffers
  import opened Tdf
  import opened Writers
  import opened RoundTrips

  /** What can be pushed. */
  datatype Kind =
    | StructKind
    | UnionKind(which: byte)
    | ListKind(elem: byte, stub: bool)
    | MapKind(keyType: byte, valueType: byte)
    | IntegerListKind

  datatype Op = Put(name: Bytes, value: Value) | Push(name: Bytes, kind: Kind) | Pop

  function Container(kind: Kind, ms: Members): Value
  {
    match kind
    case StructKind => Struct(ms)
    case UnionKind(which) => Union(which, ms)
    case ListKind(elem, stub) => List(elem, stub, ms)
    case MapKind(keyType, valueType) => Map(keyType, valueType, ms)
    case IntegerListKind => IntegerList(ms)
  }

  /** The content of a list is an array, any other content an object. */
  predicate Listed(kind: Kind)
  {
    kind.ListKind? || kind.IntegerListKind?
  }

  /** Items of an array have no name. */
  function Labelled(listed: bool, name: Bytes): Bytes
  {
    if listed then [] else name
  }

  // ----- direct construction

  /** The members that the operations describe, up to the pop that closes them; at the root pops are ignored. */
  function Construct(ops: seq<Op>, listed: bool, root: bool, done: Members): (r: (Members, seq<Op>))
    ensures |r.1| <= |ops|
    ensures root ==> r.1 == []
    decreases |ops|
  {
    if ops == [] then (done, [])
    else
      match ops[0]
      case Put(name, v) => Construct(ops[1..], listed, root, Snoc(done, Labelled(listed, name), v))
      case Push(name, kind) =>
        var inner := Construct(ops[1..], Listed(kind), false, Empty);
        Construct(inner.1, listed, root, Snoc(done, Labelled(listed, name), Container(kind, inner.0)))
      case Pop => if root then Construct(ops[1..], listed, root, done) else (done, ops[1..])
  }

  // ----- references into the document

  function Content(v: Value): Members
  {
    match v
    case Struct(ms) => ms
    case Union(_, ms) => ms
    case List(_, _, ms) => ms
    case Map(_, _, ms) => ms
    case IntegerList(ms) => ms
    case _ => Empty
  }

  function WithContent(v: Value, ms: Members): Value
  {
    match v
    case Struct(_) => Struct(ms)
    case Union(which, _) => Union(which, ms)
    case List(elem, stub, _) => List(elem, stub, ms)
    case Map(keyType, valueType, _) => Map(keyType, valueType, ms)
    case IntegerList(_) => IntegerList(ms)
    case _ => v
  }

  /** A reference is the way down: at each level the number of the member whose content holds the next. */
  type Path = seq<nat>

  function At(ms: Members, i: nat): Option<Value>
  {
    match ms
    case Empty => None
    case Member(_, v, rest) => if i == 0 then Some(v) else At(rest, i - 1)
  }

  function Replace(ms: Members, i: nat, v: Value): Members
  {
    match ms
    case Empty => Empty
    case Member(name, w, rest) => if i == 0 then Member(name, v, rest) else Member(name, w, Replace(rest, i - 1, v))
  }

  /** Whether the content a reference leads to is an array. */
  predicate IsArray(ms: Members, at: Path)
    decreases |at|
  {
    at != [] && At(ms, at[0]).Some? &&
    var v := At(ms, at[0]).value;
    if |at| == 1 then v.List? || v.IntegerList? else IsArray(Content(v), at[1..])
  }

  /** The number of members of the content a reference leads to. */
  function SizeAt(ms: Members, at: Path): nat
    decreases |at|
  {
    if at == [] then Count(ms)
    else
      var v := At(ms, at[0]);
      if v.None? then 0 else SizeAt(Content(v.value), at[1..])
  }

  /** A member appended to the content a reference leads to. */
  function AppendAt(ms: Members, at: Path, name: Bytes, v: Value): Members
    decreases |at|
  {
    if at == [] then Snoc(ms, name, v)
    else
      var w := At(ms, at[0]);
      if w.None? then ms
      else Replace(ms, at[0], WithContent(w.value, AppendAt(Content(w.value), at[1..], name, v)))
  }

  // ----- open containers

  /** An open container: the members before it, its label and its kind. */
  datatype Frame = Frame(before: Members, name: Bytes, kind: Kind)

  /** The document with its open containers closed around the innermost content. */
  function Plug(frames: seq<Frame>, inner: Members): Members
  {
    if frames == [] then inner
    else Snoc(frames[0].before, frames[0].name, Container(frames[0].kind, Plug(frames[1..], inner)))
  }

  function PathOf(frames: seq<Frame>): Path
  {
    seq(|frames|, i requires 0 <= i < |frames| => Count(frames[i].before))
  }

  function InArray(frames: seq<Frame>): bool
  {
    frames != [] && Listed(frames[|frames| - 1].kind)
  }

  /** The open containers and the innermost content after one operation. */
  function Apply(frames: seq<Frame>, inner: Members, op: Op): (seq<Frame>, Members)
  {
    match op
    case Put(name, v) => (frames, Snoc(inner, Labelled(InArray(frames), name), v))
    case Push(name, kind) => (frames + [Frame(inner, Labelled(InArray(frames), name), kind)], Empty)
    case Pop =>
      if frames == [] then (frames, inner)
      else
        var f := frames[|frames| - 1];
        (frames[..|frames| - 1], Snoc(f.before, f.name, Container(f.kind, inner)))
  }

  function ApplyAll(frames: seq<Frame>, inner: Members, ops: seq<Op>): (seq<Frame>, Members)
    decreases |ops|
  {
    if ops == [] then (frames, inner)
    else
      var next := Apply(frames, inner, ops[0]);
      ApplyAll(next.0, next.1, ops[1..])
  }

  lemma {:induction false} SnocAt(ms: Members, name: Bytes, v: Value, w: Value)
    ensures At(Snoc(ms, name, v), Count(ms)) == Some(v)
    ensures Replace(Snoc(ms, name, v), Count(ms), w) == Snoc(ms, name, w)
    ensures Count(Snoc(ms, name, v)) == Count(ms) + 1
  {
    if ms.Member? { SnocAt(ms.rest, name, v, w); }
  }

  lemma PathRest(frames: seq<Frame>)
    requires frames != []
    ensures PathOf(frames)[0] == Count(frames[0].before) && PathOf(frames)[1..] == PathOf(frames[1..])
  {}

  /** A reference to the innermost content leads there. */
  lemma {:induction false} PlugAppend(frames: seq<Frame>, inner: Members, name: Bytes, v: Value)
    ensures AppendAt(Plug(frames, inner), PathOf(frames), name, v) == Plug(frames, Snoc(inner, name, v))
    ensures SizeAt(Plug(frames, inner), PathOf(frames)) == Count(inner)
    ensures IsArray(Plug(frames, inner), PathOf(frames)) == InArray(frames)
  {
    if frames != [] {
      var f := frames[0];
      var below := Plug(frames[1..], inner);
      PathRest(frames);
      SnocAt(f.before, f.name, Container(f.kind, below), Container(f.kind, Plug(frames[1..], Snoc(inner, name, v))));
      PlugAppend(frames[1..], inner, name, v);
      assert Content(Container(f.kind, below)) == below;
      assert |frames| > 1 ==> frames[1..][|frames| - 2] == frames[|frames| - 1];
    }
  }

  /** Closing the innermost container does not change the document. */
  lemma {:induction false} PlugBack(frames: seq<Frame>, inner: Members)
    requires frames != []
    ensures var f := frames[|frames| - 1];
      Plug(frames, inner) == Plug(frames[..|frames| - 1], Snoc(f.before, f.name, Container(f.kind, inner)))
  {
    if |frames| > 1 {
      var n := |frames| - 1;
      PlugBack(frames[1..], inner);
      assert frames[1..][..n - 1] == frames[..n][1..];
      assert frames[1..][n - 1] == frames[n];
    }
  }

  /** What the remaining operations make of the open containers, constructed directly from the inside out. */
  function Closed(frames: seq<Frame>, inner: Members, ops: seq<Op>): Members
    decreases |frames|
  {
    var r := Construct(ops, InArray(frames), frames == [], inner);
    if frames == [] then r.0
    else
      var f := frames[|frames| - 1];
      Closed(frames[..|frames| - 1], Snoc(f.before, f.name, Container(f.kind, r.0)), r.1)
  }

  lemma {:induction false} ClosedNow(frames: seq<Frame>, inner: Members)
    ensures Closed(frames, inner, []) == Plug(frames, inner)
    decreases |frames|
  {
    if frames != [] {
      var f := frames[|frames| - 1];
      PlugBack(frames, inner);
      ClosedNow(frames[..|frames| - 1], Snoc(f.before, f.name, Container(f.kind, inner)));
    }
  }

  lemma ClosedStep(frames: seq<Frame>, inner: Members, ops: seq<Op>)
    requires ops != []
    ensures var next := Apply(frames, inner, ops[0]); Closed(frames, inner, ops) == Closed(next.0, next.1, ops[1..])
  {
    match ops[0]
    case Put(_, _) =>
    case Push(name, kind) =>
      var next := Apply(frames, inner, ops[0]).0;
      assert next[|next| - 1].kind == kind && next[..|next| - 1] == frames;
    case Pop =>
  }

  /** Any sequence of operations builds the document that direct construction gives; surplus pops change nothing. */
  lemma {:induction false} BuildsDirectly(frames: seq<Frame>, inner: Members, ops: seq<Op>)
    ensures var r := ApplyAll(frames, inner, ops); Plug(r.0, r.1) == Closed(frames, inner, ops)
    decreases |ops|
  {
    if ops == [] {
      ClosedNow(frames, inner);
    } else {
      var next := Apply(frames, inner, ops[0]);
      ClosedStep(frames, inner, ops);
      BuildsDirectly(next.0, next.1, ops[1..]);
    }
  }

  /** From an empty packet. */
  lemma PacketBuilds(ops: seq<Op>)
    ensures var r := ApplyAll([], Empty, ops); Plug(r.0, r.1) == Construct(ops, false, true, Empty).0
  {
    BuildsDirectly([], Empty, ops);
  }

  /** What is built, written and parsed again is the direct construction, read back. */
  lemma PacketRound(ops: seq<Op>)
    requires WritableMembers(Construct(ops, false, true, Empty).0)
    ensures var r := ApplyAll([], Empty, ops);
      ParseDocument(Document(Plug(r.0, r.1)), Empty) == Some(Merged(Construct(ops, false, true, Empty).0, Empty, false))
  {
    PacketBuilds(ops);
    DocumentRound(Construct(ops, false, true, Empty).0, Empty);
  }

  // ----- what a container is

  /** A container that is pushed is empty at first; when it is popped its content stands in the content around it, at
      the end, as a value of the kind that was pushed, without its label if the content around it is a list. */
  lemma PushThenPop(frames: seq<Frame>, inner: Members, name: Bytes, kind: Kind, content: Members)
    ensures var open := Apply(frames, inner, Push(name, kind));
      var closed := Apply(open.0, content, Pop);
      var outer := if frames == [] then StructKind else frames[|frames| - 1].kind;
      var inList := outer.ListKind? || outer.IntegerListKind?;
      var value := match kind
        case StructKind => Struct(content)
        case UnionKind(which) => Union(which, content)
        case ListKind(elem, stub) => List(elem, stub, content)
        case MapKind(keyType, valueType) => Map(keyType, valueType, content)
        case IntegerListKind => IntegerList(content);
      open.1 == Empty && closed.0 == frames && closed.1 == Snoc(inner, if inList then [] else name, value)
  {}

  /** So does what any operations between the push and the pop build, as long as they leave the container open. */
  lemma PushedAndPopped(frames: seq<Frame>, inner: Members, name: Bytes, kind: Kind, body: seq<Op>, content: Members,
                        rest: seq<Op>)
    requires var open := Apply(frames, inner, Push(name, kind)).0; ApplyAll(open, Empty, body) == (open, content)
    ensures var outer := if frames == [] then StructKind else frames[|frames| - 1].kind;
      var inList := outer.ListKind? || outer.IntegerListKind?;
      var value := match kind
        case StructKind => Struct(content)
        case UnionKind(which) => Union(which, content)
        case ListKind(elem, stub) => List(elem, stub, content)
        case MapKind(keyType, valueType) => Map(keyType, valueType, content)
        case IntegerListKind => IntegerList(content);
      ApplyAll(frames, inner, [Push(name, kind)] + body + [Pop] + rest) ==
        ApplyAll(frames, Snoc(inner, if inList then [] else name, value), rest)
  {
    PushThenPop(frames, inner, name, kind, content);
    var ops := [Push(name, kind)] + body + [Pop] + rest;
    var open := Apply(frames, inner, Push(name, kind)).0;
    assert ops[1..] == body + ([Pop] + rest);
    ApplyMore(open, Empty, body, [Pop] + rest);
    assert ([Pop] + rest)[1..] == rest;
  }

  lemma {:induction false} ApplyMore(frames: seq<Frame>, inner: Members, ops: seq<Op>, more: seq<Op>)
    ensures var r := ApplyAll(frames, inner, ops); ApplyAll(frames, inner, ops + more) == ApplyAll(r.0, r.1, more)
    decreases |ops|
  {
    if ops == [] {
      assert ops + more == more;
    } else {
      assert (ops + more)[0] == ops[0] && (ops + more)[1..] == ops[1..] + more;
      var next := Apply(frames, inner, ops[0]);
      ApplyMore(next.0, next.1, ops[1..], more);
    }
  }

  // ----- the packet

  class Packet {
    var document: Members
    var stack: seq<Path>
    ghost var frames: seq<Frame>
    ghost var inner: Members

    /** Every reference on the stack leads to an open container, the last one to the innermost. */
    ghost predicate Valid()
      reads this
    {
      && document == Plug(frames, inner)
      && |stack| == |frames| + 1
      && forall i | 0 <= i < |stack| :: stack[i] == PathOf(frames[..i])
    }

    constructor ()
      ensures Valid() && frames == [] && inner == Empty && document == Empty
    {
      document, stack := Empty, [[]];
      frames, inner := [], Empty;
    }

    /** `AddMember`: to an object under its name, to an array at its end; the reference leads to the new value. */
    method AddMember(parent: Path, name: Bytes, v: Value) returns (at: Path)
      requires Valid() && parent == stack[|stack| - 1]
      modifies this`document, this`inner
      ensures Valid() && frames == old(frames) && stack == old(stack)
      ensures inner == Snoc(old(inner), Labelled(InArray(frames), name), v)
      ensures at == PathOf(frames) + [Count(old(inner))]
    {
      assert frames[..|frames|] == frames;
      var isArray := IsArray(document, parent);
      var index := SizeAt(document, parent);
      PlugAppend(frames, inner, Labelled(isArray, name), v);
      document := AppendAt(document, parent, Labelled(isArray, name), v);
      inner := Snoc(inner, Labelled(InArray(frames), name), v);
      at := parent + [index];
    }

    method PutValue(name: Bytes, v: Value)
      requires Valid()
      modifies this
      ensures Valid() && (frames, inner) == Apply(old(frames), old(inner), Put(name, v))
    {
      var at := AddMember(stack[|stack| - 1], name, v);
    }

    method PushContainer(name: Bytes, kind: Kind)
      requires Valid()
      modifies this
      ensures Valid() && (frames, inner) == Apply(old(frames), old(inner), Push(name, kind))
    {
      ghost var before := inner;
      ghost var f := Frame(inner, Labelled(InArray(frames), name), kind);
      var at := AddMember(stack[|stack| - 1], name, Container(kind, Empty));
      stack := stack + [at];
      PlugPush(frames, f);
      frames, inner := frames + [f], Empty;
      assert frames[..|frames| - 1] == old(frames);
      assert PathOf(frames) == PathOf(old(frames)) + [Count(before)];
      forall i | 0 <= i < |stack| ensures stack[i] == PathOf(frames[..i]) {
        if i < |stack| - 1 { assert frames[..i] == old(frames)[..i]; } else { assert frames[..i] == frames; }
      }
    }

    method PopContainer()
      requires Valid()
      modifies this
      ensures Valid() && (frames, inner) == Apply(old(frames), old(inner), Pop)
    {
      if |stack| > 1 {
        stack := stack[..|stack| - 1];
        ghost var f := frames[|frames| - 1];
        PlugBack(frames, inner);
        frames, inner := frames[..|frames| - 1], Snoc(f.before, f.name, Container(f.kind, inner));
        forall i | 0 <= i < |stack| ensures stack[i] == PathOf(frames[..i]) {
          assert frames[..i] == old(frames)[..i];
        }
      }
    }

    /** `Write`: the members of the document, one after the other. */
    method Write(buffer: DataBuffer)
      requires Valid() && buffer.Valid() && buffer.position <= buffer.size
      modifies buffer
      ensures buffer.Valid() && document == old(document)
      ensures buffer.Contents() == Over(old(buffer.Contents()), old(buffer.position), Document(document))
    {
      WroteNothing(buffer);
      ghost var c, p := buffer.Contents(), buffer.position;
      WriteMembers(buffer, document, c, p, []);
      assert [] + Document(document) == Document(document);
    }
  }

  lemma {:induction false} PlugPush(frames: seq<Frame>, f: Frame)
    ensures Plug(frames, Snoc(f.before, f.name, Container(f.kind, Empty))) == Plug(frames + [f], Empty)
  {
    PlugBack(frames + [f], Empty);
    assert (frames + [f])[..|frames|] == frames;
  }
}
