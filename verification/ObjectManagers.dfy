/** The object manager of game/objectmanager.cpp: ids are handed out and recycled when the deletion of an object is
    processed, and new objects enter the spatial index. */
module ObjectManagers {
  import opened Geometry
  import opened GameObjects
  import opened Sequences
  import opened Places
  import opened Building
  import opened Probing
  import opened Octrees
  import Running
  import Sessions

  /** The manager's containers, the objects whose deletion flag is set, and all objects ever made. */
  datatype Manager = Manager(objects: map<nat, GameObject>, active: set<GameObject>, marked: seq<GameObject>,
                             open: seq<nat>,
                             flagged: set<GameObject>, made: set<GameObject>)

  /** The id counter is shared by all managers of a thread and wraps, so a create may find any value there. */
  datatype Step = Create(counter: nat, o: GameObject) | Mark(o: GameObject) | Process

  const ID_LIMIT: nat := 0x1_0000_0000

  /** `GetNextObjectId`: a recycled id if there is one, else the counter. */
  function NextId(m: Manager, counter: nat): nat
  {
    if m.open != [] then m.open[|m.open| - 1] else counter
  }

  function Taken(m: Manager): Manager
  {
    if m.open != [] then m.(open := m.open[..|m.open| - 1]) else m
  }

  /** No object is made for id 0 or an id in use. */
  predicate Makes(m: Manager, counter: nat)
  {
    NextId(m, counter) != 0 && NextId(m, counter) !in m.objects
  }

  function Created(m: Manager, counter: nat, o: GameObject): Manager
  {
    if Makes(m, counter) then
      Taken(m).(objects := m.objects[NextId(m, counter) := o], active := m.active + {o}, made := m.made + {o})
    else Taken(m)
  }

  /** `Object::MarkForDeletion`: noted once, then flagged. */
  function Marked(m: Manager, o: GameObject): Manager
  {
    if o in m.flagged then m else m.(marked := m.marked + [o], flagged := m.flagged + {o})
  }

  function IdsOf(s: seq<GameObject>): (ids: seq<nat>)
    ensures |ids| == |s| && forall i | 0 <= i < |s| :: ids[i] == s[i].id
  {
    seq(|s|, i requires 0 <= i < |s| => s[i].id)
  }

  /** The deletion phase of `Update`. */
  ghost function Processed(m: Manager): Manager
  {
    m.(objects := m.objects - Elements(IdsOf(m.marked)), active := m.active - Elements(m.marked),
       open := m.open + IdsOf(m.marked), marked := [])
  }

  predicate Found(m: Manager, o: GameObject)
  {
    o.id in m.objects && m.objects[o.id] == o
  }

  /** Live ids and recycled ids are disjoint, free of duplicates and not 0; the active objects are the live ones; the
      noted objects are the live ones that are flagged, each noted once; an object that is not live any more is
      flagged. */
  ghost predicate Sane(m: Manager)
  {
    && (forall id <- m.objects.Keys :: m.objects[id].id == id && id != 0 && m.objects[id] in m.made)
    && m.active == m.objects.Values
    && Distinct(m.marked) && (forall o <- m.marked :: Found(m, o))
    && (forall o <- m.made :: if Found(m, o) then (o in m.flagged <==> o in m.marked) else o in m.flagged)
    && m.flagged <= m.made
    && Distinct(m.open) && (forall id <- m.open :: id != 0 && id !in m.objects)
  }

  /** The steps that can be taken: a new object carries its id, and only objects that were made are marked. */
  ghost predicate Enabled(m: Manager, step: Step)
  {
    match step
    case Create(counter, o) => Makes(m, counter) ==> o !in m.made && o.id == NextId(m, counter)
    case Mark(o) => o in m.made
    case Process => true
  }

  ghost function Applied(m: Manager, step: Step): Manager
  {
    match step
    case Create(counter, o) => Created(m, counter, o)
    case Mark(o) => Marked(m, o)
    case Process => Processed(m)
  }

  lemma CreatedSane(m: Manager, counter: nat, o: GameObject)
    requires Sane(m) && Enabled(m, Create(counter, o))
    ensures Sane(Created(m, counter, o))
    ensures forall id <- m.objects.Keys ::
      id in Created(m, counter, o).objects && Created(m, counter, o).objects[id] == m.objects[id]
  {
    if m.open != [] { DistinctInit(m.open); }
    var n := Created(m, counter, o);
    if Makes(m, counter) {
      hide Distinct;
      assert m.open != [] ==> o.id !in n.open;
      assert o !in m.marked && o !in m.flagged && Found(n, o);
      assert forall id <- n.open :: id in m.open;
      assert n.objects.Values == m.objects.Values + {o} by {
        forall x <- m.objects.Values ensures x in n.objects.Values { assert x.id in m.objects && n.objects[x.id] == x; }
        assert n.objects[o.id] == o;
      }
      forall x <- m.made ensures Found(n, x) <==> Found(m, x) {}
      forall x <- m.marked ensures Found(n, x) { assert Found(m, x) && x in m.made; }
    }
  }

  lemma MarkedSane(m: Manager, o: GameObject)
    requires Sane(m) && o in m.made
    ensures Sane(Marked(m, o))
  {
    if o !in m.flagged {
      var n := Marked(m, o);
      assert Found(m, o) && o !in m.marked;
      assert forall x <- n.marked :: x in m.marked || x == o;
      assert forall x <- m.made :: Found(n, x) <==> Found(m, x);
      assert forall x :: x in n.marked <==> x in m.marked || x == o;
    }
  }

  lemma IdsMembers(s: seq<GameObject>, o: GameObject)
    requires o in s
    ensures o.id in IdsOf(s)
  {
    var i :| 0 <= i < |s| && s[i] == o;
    assert IdsOf(s)[i] == o.id;
  }

  lemma ProcessedSane(m: Manager)
    requires Sane(m)
    ensures Sane(Processed(m))
    ensures forall id <- m.objects.Keys :: m.objects[id] !in m.marked ==>
      id in Processed(m).objects && Processed(m).objects[id] == m.objects[id]
    ensures forall o <- m.marked ::
      o.id !in Processed(m).objects && o !in Processed(m).active && o.id in Processed(m).open
  {
    var n, ids := Processed(m), IdsOf(m.marked);
    forall o <- m.marked ensures o.id in ids { IdsMembers(m.marked, o); }
    forall id <- m.objects.Keys ensures id in ids <==> m.objects[id] in m.marked {
      if id in ids {
        var i :| 0 <= i < |ids| && ids[i] == id;
        assert m.marked[i] in m.marked && Found(m, m.marked[i]);
      }
    }
    assert forall o <- m.made :: Found(n, o) <==> Found(m, o) && o !in m.marked;
    assert n.active == n.objects.Values by {
      forall o <- n.active ensures o in n.objects.Values { assert Found(m, o); assert n.objects[o.id] == o; }
    }
    ProcessedOpen(m);
  }

  /** The ids that are free afterwards were free or belong to objects that were noted. */
  lemma ProcessedOpen(m: Manager)
    requires Sane(m)
    ensures var n := Processed(m); Distinct(n.open) && forall id <- n.open :: id != 0 && id !in n.objects
  {
    var n, ids := Processed(m), IdsOf(m.marked);
    DistinctIds(m);
    forall id <- n.open ensures id != 0 && id !in n.objects {
      if id !in m.open {
        assert id in ids;
        var i :| 0 <= i < |ids| && ids[i] == id;
        assert Found(m, m.marked[i]);
      }
    }
    forall i, j | 0 <= i < j < |n.open| ensures n.open[i] != n.open[j] {
      if i < |m.open| && j >= |m.open| {
        assert m.marked[j - |m.open|] in m.marked;
        assert m.open[i] in m.open;
      }
    }
  }

  lemma DistinctIds(m: Manager)
    requires Distinct(m.marked) && forall o <- m.marked :: Found(m, o)
    ensures Distinct(IdsOf(m.marked))
  {
    var ids := IdsOf(m.marked);
    forall i, j | 0 <= i < j < |ids| ensures ids[i] != ids[j] {
      assert m.marked[i] in m.marked && m.marked[j] in m.marked;
    }
  }

  lemma AppliedSane(m: Manager, step: Step)
    requires Sane(m) && Enabled(m, step)
    ensures Sane(Applied(m, step))
  {
    match step
    case Create(counter, o) => CreatedSane(m, counter, o);
    case Mark(o) => MarkedSane(m, o);
    case Process => ProcessedSane(m);
  }

  // ----- runs

  ghost predicate Run(steps: seq<Step>, ms: seq<Manager>)
  {
    && |ms| == |steps| + 1 && ms[0] == Manager(map[], {}, [], [], {}, {})
    && forall i | 0 <= i < |steps| :: Enabled(ms[i], steps[i]) && ms[i + 1] == Applied(ms[i], steps[i])
  }

  /** The invariant holds in every state of every run, whatever the counter does. */
  lemma {:induction false} RunSane(steps: seq<Step>, ms: seq<Manager>, i: nat)
    requires Run(steps, ms) && i < |ms|
    ensures Sane(ms[i])
  {
    hide Sane, Applied, Enabled;
    if i > 0 {
      RunSane(steps, ms, i - 1);
      AppliedSane(ms[i - 1], steps[i - 1]);
    } else {
      EmptySane();
    }
  }

  lemma EmptySane()
    ensures Sane(Manager(map[], {}, [], [], {}, {}))
  {}

  /** No live object is overwritten: an object is found under its id until its deletion is processed. */
  lemma {:induction false} FoundUntilDeleted(steps: seq<Step>, ms: seq<Manager>, i: nat, j: nat, o: GameObject)
    requires Run(steps, ms) && i <= j < |ms| && Found(ms[i], o)
    requires forall k | i <= k < j :: steps[k].Process? ==> o !in ms[k].marked
    ensures Found(ms[j], o)
    decreases j - i
  {
    if i < j {
      RunSane(steps, ms, i);
      var m, step := ms[i], steps[i];
      hide Sane;
      assert Found(Applied(m, step), o) by {
        match step
        case Create(counter, x) => CreatedSane(m, counter, x);
        case Mark(_) =>
        case Process => ProcessedSane(m);
      }
      FoundUntilDeleted(steps, ms, i + 1, j, o);
    }
  }

  /** And then it is gone for good: its id is free again, and it never is live, active or noted again. */
  lemma {:induction false} GoneForGood(steps: seq<Step>, ms: seq<Manager>, i: nat, j: nat, o: GameObject)
    requires Run(steps, ms) && i <= j < |ms| && o in ms[i].made && !Found(ms[i], o)
    ensures !Found(ms[j], o) && o in ms[j].made && o !in ms[j].active && o !in ms[j].marked
    decreases j - i
  {
    RunSane(steps, ms, i);
    if i < j {
      var m, step := ms[i], steps[i];
      assert Enabled(m, step) && ms[i + 1] == Applied(m, step);
      GoneForGood(steps, ms, i + 1, j, o);
    } else {
      assert forall x <- ms[i].objects.Values :: Found(ms[i], x);
    }
  }

  /** The objects that are marked one after the other. */
  ghost function MarkedAll(m: Manager, doomed: seq<GameObject>): Manager
  {
    if doomed == [] then m else Marked(MarkedAll(m, doomed[..|doomed| - 1]), doomed[|doomed| - 1])
  }

  lemma {:induction false} MarkedAllIs(m: Manager, doomed: seq<GameObject>)
    requires Sane(m) && forall o <- doomed :: o in m.made
    ensures var n := MarkedAll(m, doomed);
      Sane(n) && n.made == m.made && n.objects == m.objects && n.flagged == m.flagged + Elements(doomed)
  {
    hide Sane;
    if doomed != [] {
      var last := doomed[|doomed| - 1];
      assert doomed == doomed[..|doomed| - 1] + [last];
      MarkedAllIs(m, doomed[..|doomed| - 1]);
      MarkedSane(MarkedAll(m, doomed[..|doomed| - 1]), last);
    }
  }

  /** Of the objects that are not flagged, those that are marked now are gone when the deletion phase is over. */
  lemma UpdateLeaves(m: Manager, doomed: seq<GameObject>, o: GameObject)
    requires Sane(m) && (forall x <- doomed :: x in m.made) && o in m.made && o !in m.flagged
    ensures Found(Processed(MarkedAll(m, doomed)), o) <==> o !in doomed
  {
    var n := MarkedAll(m, doomed);
    MarkedAllIs(m, doomed);
    ProcessedSane(n);
    assert Found(m, o) && Found(n, o);
  }

  /** The index with these objects flagged. */
  ghost function AllFlagged(t: Running.Index, doomed: seq<GameObject>): Running.Index
  {
    t.(v := t.v.(marked := t.v.marked + Elements(doomed)))
  }

  lemma AllFlaggedNone(t: Running.Index, doomed: seq<GameObject>)
    ensures AllFlagged(t, doomed[..0]) == t
  {
    assert t.v.marked + Elements(doomed[..0]) == t.v.marked;
  }

  lemma AllFlaggedNext(t: Running.Index, doomed: seq<GameObject>, i: nat, t': Running.Index)
    requires i < |doomed|
    requires Running.Next(AllFlagged(t, doomed[..i]), Running.Marks(doomed[i]), t', Running.NO_LOSS)
    ensures t' == AllFlagged(t, doomed[..i + 1])
  {
    assert Elements(doomed[..i + 1]) == Elements(doomed[..i]) + {doomed[i]};
  }

  /** Of two objects marked one after the other, the id of the second is given out first and then that of the first;
      without any to recycle the counter is. */
  lemma LastMarkedFirst(m: Manager, a: GameObject, b: GameObject, counter: nat)
    requires a !in m.flagged && b !in m.flagged && a != b
    ensures var n := Processed(Marked(Marked(m, a), b));
      NextId(n, counter) == b.id && NextId(Taken(n), counter) == a.id && NextId(Taken(Taken(n)), counter) ==
        if m.marked != [] then m.marked[|m.marked| - 1].id else if m.open != [] then m.open[|m.open| - 1] else counter
  {
    var marked, n := m.marked + [a] + [b], Processed(Marked(Marked(m, a), b));
    assert n.open == m.open + IdsOf(marked);
    assert Taken(n).open == n.open[..|n.open| - 1] && Taken(Taken(n)).open == n.open[..|n.open| - 2];
  }

  // ----- the object manager

  /** A tree that is its top node only. */
  ghost function Alone(top: OctTree): Nodes
  {
    map[Top := top]
  }

  class ObjectManager {
    var octTree: OctTree
    var objects: map<nat, GameObject>
    var activeObjects: set<GameObject>
    var markedObjects: seq<GameObject>
    var openObjectIds: seq<nat>
    ghost var made: set<GameObject>

    constructor ()
      ensures Valid() && made == {} && Now() == Manager(map[], {}, [], [], {}, {})
      ensures Tracked(map[], Alone(octTree), multiset{}, multiset{})
      ensures Sessions.Snapshot(Alone(octTree), map[]) == Running.Fresh(octTree.region)
    {
      EmptySane();
      hide Sane, Sessions.Healthy, Linked, Sessions.Snapshot;
      objects, activeObjects, markedObjects, openObjectIds, made := map[], {}, [], [], {};
      var top;
      ghost var nodes;
      top, nodes := Sessions.Open();
      octTree := top;
      new;
      assert Now() == Manager(map[], {}, [], [], {}, {});
    }

    ghost function Now(): Manager
      reads this, made`marked
    {
      Manager(objects, activeObjects, markedObjects, openObjectIds, (set o | o in made && o.marked), made)
    }

    ghost predicate Valid()
      reads this, made`marked
    {
      Sane(Now())
    }

    /** Every object that was made entered the index. */
    ghost predicate Tracked(boxes: Boxes, nodes: Nodes, entered: multiset<GameObject>, lost: multiset<GameObject>)
      reads this, made`marked, nodes.Values, boxes.Keys`dirty, boxes.Keys`marked, (set o | o in boxes)`box
    {
      && Valid() && boxes.Keys == made && Top in nodes
      && Sessions.Healthy(nodes, boxes, entered, lost) && nodes[Top] == octTree
    }

    method Get(id: nat) returns (o: GameObject?)
      requires Valid()
      ensures o != null <==> id in objects
      ensures o != null ==> o.id == id && o in activeObjects
    {
      o := if id in objects then objects[id] else null;
      if o != null { assert o in objects.Values; }
    }

    /** The counter counts modulo 2^32. */
    method GetNextObjectId(counter: nat) returns (id: nat, counter': nat)
      requires counter < ID_LIMIT
      modifies this`openObjectIds
      ensures id == old(NextId(Now(), counter)) && Now() == old(Taken(Now()))
      ensures id == if old(openObjectIds) == [] then counter else old(openObjectIds)[|old(openObjectIds)| - 1]
      ensures counter' == if old(openObjectIds) == [] then (counter + 1) % ID_LIMIT else counter
    {
      counter' := counter;
      if openObjectIds != [] {
        id := openObjectIds[|openObjectIds| - 1];
        openObjectIds := openObjectIds[..|openObjectIds| - 1];
      } else {
        id := counter;
        counter' := (counter + 1) % ID_LIMIT;
      }
    }

    /** The part of `Create` and `CreateTrigger` that concerns the manager itself. */
    method Register(noun: nat, isTrigger: bool, box: BoundingBox, counter: nat) returns (o: GameObject?, counter': nat)
      requires Valid() && counter < ID_LIMIT
      modifies this`objects, this`activeObjects, this`openObjectIds, this`made
      ensures Valid() && counter' < ID_LIMIT
      ensures o != null <==> old(Makes(Now(), counter))
      ensures made == old(made) + if o != null then {o} else {}
      ensures o == null ==> Now() == old(Taken(Now()))
      ensures o != null ==> fresh(o) && o.noun == noun && o.isTrigger == isTrigger
      ensures o != null ==> !o.marked && !o.dirty && o.box == box && Now() == Created(old(Now()), counter, o)
    {
      ghost var m := Now();
      var id;
      id, counter' := GetNextObjectId(counter);
      o := null;
      if id == 0 {
        SameTaken(m, counter);
        return;
      }
      if id !in objects {
        var created := new GameObject(id, noun, isTrigger, box);
        objects := objects[id := created];
        activeObjects := activeObjects + {created};
        made := made + {created};
        o := created;
        CreatedSane(m, counter, created);
        assert Now() == Created(m, counter, created);
      } else {
        SameTaken(m, counter);
      }
    }

    /** `Create` and `CreateTrigger`; null when the id is 0 or in use. A new object waits in the queue of the index. */
    method Create(noun: nat, isTrigger: bool, box: BoundingBox, counter: nat, ghost boxes: Boxes, ghost nodes: Nodes,
                  ghost entered: multiset<GameObject>, ghost lost: multiset<GameObject>)
      returns (o: GameObject?, counter': nat, ghost boxes': Boxes)
      requires Tracked(boxes, nodes, entered, lost) && counter < ID_LIMIT
      modifies this`objects, this`activeObjects, this`openObjectIds, this`made, octTree`queue, octTree`ready
      ensures Tracked(boxes', nodes, entered + if o != null then multiset{o} else multiset{}, lost)
        && counter' < ID_LIMIT
      ensures o != null <==> old(Makes(Now(), counter))
      ensures o == null ==> Now() == old(Taken(Now())) && boxes' == boxes
      ensures o != null ==> fresh(o) && o.noun == noun && o.isTrigger == isTrigger && o.box == box
      ensures o != null ==> Now() == Created(old(Now()), counter, o) && boxes' == boxes[o := box]
      ensures octTree.queue == old(octTree.queue) + if o != null then [o] else []
      ensures o != null ==>
        Running.Next(old(Sessions.Snapshot(nodes, boxes)), Running.Enters(o, box, false),
                     Sessions.Snapshot(nodes, boxes'), Running.NO_LOSS)
    {
      hide Sessions.Healthy, Sane, Running.Next, Created, Makes, Sessions.Snapshot, Taken;
      boxes' := boxes;
      assert entered + multiset{} == entered;
      o, counter' := Register(noun, isTrigger, box, counter);
      if o != null {
        boxes' := Enqueue(o, boxes, nodes, entered, lost);
      }
    }

    /** A new object is put into the queue of the index. */
    method Enqueue(o: GameObject, ghost boxes: Boxes, ghost nodes: Nodes, ghost entered: multiset<GameObject>,
                   ghost lost: multiset<GameObject>)
      returns (ghost boxes': Boxes)
      requires Valid() && Top in nodes && Sessions.Healthy(nodes, boxes, entered, lost) && nodes[Top] == octTree
      requires o !in boxes && made == boxes.Keys + {o} && !o.marked
      modifies octTree`queue, octTree`ready
      ensures Tracked(boxes', nodes, entered + multiset{o}, lost) && octTree.queue == old(octTree.queue) + [o]
      ensures Now() == old(Now()) && boxes' == boxes[o := o.box]
      ensures Running.Next(old(Sessions.Snapshot(nodes, boxes)), Running.Enters(o, o.box, o.dirty),
                           Sessions.Snapshot(nodes, boxes'), Running.NO_LOSS)
    {
      hide Sessions.Healthy, Sane, Running.Next, Sessions.Snapshot;
      boxes' := Sessions.Enter(octTree, o, boxes, nodes, entered, lost);
      assert boxes'.Keys == made;
    }

    /** `Object::MarkForDeletion` with the manager's part in it. */
    method MarkForDeletion(o: GameObject, ghost boxes: Boxes, ghost nodes: Nodes, ghost entered: multiset<GameObject>,
                           ghost lost: multiset<GameObject>)
      requires Tracked(boxes, nodes, entered, lost) && o in made
      modifies this`markedObjects, o`marked
      ensures Tracked(boxes, nodes, entered, lost) && Now() == old(Marked(Now(), o)) && o.marked
      ensures Running.Next(old(Sessions.Snapshot(nodes, boxes)), Running.Marks(o), Sessions.Snapshot(nodes, boxes),
                           Running.NO_LOSS)
    {
      hide Sessions.Healthy, Running.Next, Sessions.Snapshot;
      ghost var m, t := Now(), Sessions.Snapshot(nodes, boxes);
      MarkedSane(m, o);
      hide Sane;
      if !o.marked {
        markedObjects := markedObjects + [o];
      }
      assert Sessions.Snapshot(nodes, boxes) == t;
      Sessions.Flag(o, boxes, nodes, entered, lost);
      assert Now() == Marked(m, o);
    }

    /** The deletion phase of `Update`. */
    method DeleteMarked()
      requires Valid()
      modifies this`objects, this`activeObjects, this`markedObjects, this`openObjectIds
      ensures Valid() && Now() == old(Processed(Now()))
    {
      ghost var m := Now();
      ProcessedSane(m);
      HalfStart(m);
      HalfRest(m, |m.marked|);
      hide Sane, HalfProcessed, Processed;
      DeleteEach(m);
      markedObjects := [];
      assert Now().flagged == m.flagged;
      assert Now() == Processed(m);
    }

    /** What the ticks of the active objects mark for deletion. */
    method MarkEach(doomed: seq<GameObject>, ghost boxes: Boxes, ghost nodes: Nodes,
                    ghost entered: multiset<GameObject>, ghost lost: multiset<GameObject>)
      requires Tracked(boxes, nodes, entered, lost) && forall o <- doomed :: o in made
      modifies this`markedObjects, made`marked
      ensures Tracked(boxes, nodes, entered, lost) && Now() == old(MarkedAll(Now(), doomed))
      ensures Sessions.Snapshot(nodes, boxes) == AllFlagged(old(Sessions.Snapshot(nodes, boxes)), doomed)
    {
      hide Sessions.Healthy, Sane, Running.Next, Sessions.Snapshot, Marked, AllFlagged;
      ghost var m, t := Now(), Sessions.Snapshot(nodes, boxes);
      AllFlaggedNone(t, doomed);
      var index := 0;
      while index < |doomed|
        invariant index <= |doomed| && Tracked(boxes, nodes, entered, lost) && Now() == MarkedAll(m, doomed[..index])
        invariant Sessions.Snapshot(nodes, boxes) == AllFlagged(t, doomed[..index])
      {
        MarkForDeletion(doomed[index], boxes, nodes, entered, lost);
        AllFlaggedNext(t, doomed, index, Sessions.Snapshot(nodes, boxes));
        assert doomed[..index + 1][..index] == doomed[..index];
        index := index + 1;
      }
      assert doomed[..index] == doomed;
    }

    /** The first step of `Update`: the index ticks. */
    method UpdateIndex(ghost doomed: seq<GameObject>, ghost boxes: Boxes, ghost nodes: Nodes,
                       ghost entered: multiset<GameObject>, ghost lost: multiset<GameObject>)
      returns (ghost after: Nodes, ghost loss: Running.Loss)
      requires Tracked(boxes, nodes, entered, lost) && forall o <- doomed :: o in made
      modifies nodes.Values, made`dirty, made`states
      ensures Tracked(boxes, after, entered, lost + loss.All()) && Now() == old(Now())
      ensures Running.Next(old(Sessions.Snapshot(nodes, boxes)), Running.Tick, Sessions.Snapshot(after, boxes), loss)
      ensures forall o <- Members(Stored(after)) :: Found(Processed(MarkedAll(Now(), doomed)), o) <==> o !in doomed
    {
      hide Sessions.Healthy, Sane, Running.Next, Sessions.Snapshot, Processed, Found, Members, Stored;
      ghost var m := Now();
      after, loss := Sessions.TickIndex(octTree, boxes, nodes, entered, lost);
      assert Now() == m;
      forall o <- Members(Stored(after)) ensures Found(Processed(MarkedAll(m, doomed)), o) <==> o !in doomed {
        UpdateLeaves(m, doomed, o);
      }
    }

    /** `Update`: the index ticks, then the active objects, then the noted objects are deleted. An object that the index
        stores is live afterwards unless it was marked in between: such an object stays in the index until its next
        tick. */
    method Update(doomed: seq<GameObject>, ghost boxes: Boxes, ghost nodes: Nodes, ghost entered: multiset<GameObject>,
                  ghost lost: multiset<GameObject>)
      returns (ghost after: Nodes, ghost loss: Running.Loss, ghost ticked: Running.Index)
      requires Tracked(boxes, nodes, entered, lost) && forall o <- doomed :: o in made
      modifies this`objects, this`activeObjects, this`markedObjects, this`openObjectIds
      modifies nodes.Values, made`dirty, made`states, made`marked
      ensures Tracked(boxes, after, entered, lost + loss.All())
      ensures Now() == old(Processed(MarkedAll(Now(), doomed)))
      ensures Running.Next(old(Sessions.Snapshot(nodes, boxes)), Running.Tick, ticked, loss)
      ensures Sessions.Snapshot(after, boxes) == AllFlagged(ticked, doomed)
      ensures forall o <- Members(Stored(after)) :: Found(Now(), o) <==> o !in doomed
    {
      hide Sessions.Healthy, Sane, Running.Next, Sessions.Snapshot, Processed, Found, Members, Stored, AllFlagged;
      after, loss := UpdateIndex(doomed, boxes, nodes, entered, lost);
      ticked := Sessions.Snapshot(after, boxes);
      MarkEach(doomed, boxes, after, entered, lost + loss.All());
      DeleteMarked();
    }

    /** The loop over the noted objects. */
    method DeleteEach(ghost m: Manager)
      requires m == Now()
      modifies this`objects, this`activeObjects, this`openObjectIds
      ensures objects == HalfProcessed(m, |m.marked|).objects && activeObjects == HalfProcessed(m, |m.marked|).active
      ensures openObjectIds == HalfProcessed(m, |m.marked|).open
    {
      HalfStart(m);
      hide HalfProcessed, Processed;
      var index := 0;
      while index < |markedObjects|
        invariant markedObjects == m.marked && index <= |m.marked|
        invariant objects == HalfProcessed(m, index).objects && activeObjects == HalfProcessed(m, index).active
        invariant openObjectIds == HalfProcessed(m, index).open
      {
        var o := markedObjects[index];
        HalfStep(m, index);
        activeObjects := activeObjects - {o};
        objects := objects - {o.id};
        openObjectIds := openObjectIds + [o.id];
        index := index + 1;
      }
    }
  }

  lemma SameTaken(m: Manager, counter: nat)
    requires Sane(m) && !Makes(m, counter)
    ensures Sane(Taken(m))
  {
    if m.open != [] { DistinctInit(m.open); }
  }

  /** The containers after the first `n` noted objects were dealt with. */
  ghost function HalfProcessed(m: Manager, n: nat): Manager
    requires n <= |m.marked|
  {
    m.(objects := m.objects - Elements(IdsOf(m.marked[..n])), active := m.active - Elements(m.marked[..n]),
       open := m.open + IdsOf(m.marked[..n]))
  }

  lemma HalfStart(m: Manager)
    ensures HalfProcessed(m, 0) == m
    ensures HalfProcessed(m, |m.marked|).(marked := []) == Processed(m)
  {
    assert m.marked[..0] == [] && IdsOf([]) == [] && Elements<nat>([]) == {} && Elements<GameObject>([]) == {};
    assert m.objects - {} == m.objects && m.active - {} == m.active && m.open + [] == m.open;
    assert m.marked[..|m.marked|] == m.marked;
  }

  lemma HalfRest(m: Manager, n: nat)
    requires n <= |m.marked|
    ensures HalfProcessed(m, n) ==
      m.(objects := HalfProcessed(m, n).objects, active := HalfProcessed(m, n).active, open := HalfProcessed(m, n).open)
  {}

  lemma HalfStep(m: Manager, i: nat)
    requires i < |m.marked|
    ensures var now, next, o := HalfProcessed(m, i), HalfProcessed(m, i + 1), m.marked[i];
      next == now.(objects := now.objects - {o.id}, active := now.active - {o}, open := now.open + [o.id])
  {
    var s := m.marked;
    assert s[..i + 1] == s[..i] + [s[i]];
    assert IdsOf(s[..i + 1]) == IdsOf(s[..i]) + [s[i].id];
    assert Elements(s[..i + 1]) == Elements(s[..i]) + {s[i]};
    assert Elements(IdsOf(s[..i + 1])) == Elements(IdsOf(s[..i])) + {s[i].id};
    hide Elements, IdsOf;
  }
}
