/** The index at work: what the game does to the top node and to the objects are steps of a run. */
module Sessions {
  import opened Geometry
  import opened Sequences
  import opened GameObjects
  import opened Places
  import opened Totals
  import opened Building
  import opened ChildMask
  import opened Probing
  import opened Aging
  import opened Risks
  import opened Ticking
  import opened Octrees
  import opened Running

  /** The index as a value. */
  ghost function Snapshot(nodes: Nodes, boxes: Boxes): Index
    requires Top in nodes
    reads nodes.Values, boxes.Keys`dirty, boxes.Keys`marked
  {
    Index(Now(nodes), Seeing(boxes), nodes[Top].queue)
  }

  /** A linked tree in a state that a run can reach. */
  ghost predicate Healthy(nodes: Nodes, boxes: Boxes, entered: multiset<GameObject>, lost: multiset<GameObject>)
    reads nodes.Values, boxes.Keys`dirty, boxes.Keys`marked, (set o | o in boxes)`box
  {
    Linked(nodes) && Top in nodes && Current(boxes) && Kept(Snapshot(nodes, boxes), entered, lost)
  }

  method Open() returns (top: OctTree, ghost nodes: Nodes)
    ensures fresh(top) && nodes == map[Top := top] && Snapshot(nodes, map[]) == Fresh(top.region)
    ensures top.region == BoundingBox(Vec3(0.0, 0.0, 0.0), Vec3(2500.0, 2500.0, 2500.0))
    ensures Healthy(nodes, map[], multiset{}, multiset{})
  {
    hide Kept, Linked;
    top := new OctTree(BoundingBox.FromCorners(Vec3(-2500.0, -2500.0, -2500.0), Vec3(2500.0, 2500.0, 2500.0)), Top);
    nodes := map[Top := top];
    FreshKept(top.region);
    assert Seeing(map[]) == View(map[], {}, {});
    OpenLinked(top);
    assert Stored(nodes) == map[Top := []] && Ages(nodes) == map[Top := NEW_AGE];
  }

  lemma OpenLinked(top: OctTree)
    requires top.path == Top && top.Pristine() && top.parent == null && top.region.Proper()
    ensures Linked(map[Top := top])
  {
    hide Small;
    EmptyMask(0);
    hide HasBit;
    var nodes := map[Top := top];
    assert Ties(nodes) == map[Top := TieOf(top)];
    assert NodeTied(nodes, Top, TieOf(top));
  }

  /** An object made by the game is enqueued. */
  method Enter(top: OctTree, o: GameObject, ghost boxes: Boxes, ghost nodes: Nodes, ghost entered: multiset<GameObject>,
               ghost lost: multiset<GameObject>)
    returns (ghost boxes': Boxes)
    requires Healthy(nodes, boxes, entered, lost) && nodes[Top] == top && o !in boxes && !o.marked
    modifies top`queue, top`ready
    ensures boxes' == boxes[o := o.box] && Healthy(nodes, boxes', entered + multiset{o}, lost)
    ensures top.queue == old(top.queue) + [o]
    ensures Next(old(Snapshot(nodes, boxes)), Enters(o, o.box, o.dirty), Snapshot(nodes, boxes'), NO_LOSS)
  {
    hide Linked, Kept, Stored, Ages, AgeOf;
    ghost var t := Snapshot(nodes, boxes);
    boxes' := boxes[o := o.box];
    NowNode(nodes, Top);
    top.Enqueue(o, nodes);
    EntersView(boxes, o);
    assert lost + NO_LOSS.All() == lost;
    StepKept(t, Enters(o, o.box, o.dirty), Snapshot(nodes, boxes'), NO_LOSS, entered, lost);
  }

  lemma EntersView(boxes: Boxes, o: GameObject)
    requires o !in boxes && !o.marked
    ensures Seeing(boxes[o := o.box]) ==
      View(boxes[o := o.box], if o.dirty then Seeing(boxes).dirty + {o} else Seeing(boxes).dirty, Seeing(boxes).marked)
  {}

  /** An object moves. */
  method Move(o: GameObject, position: Vec3, ghost boxes: Boxes, ghost nodes: Nodes,
              ghost entered: multiset<GameObject>, ghost lost: multiset<GameObject>)
    returns (ghost boxes': Boxes)
    requires Healthy(nodes, boxes, entered, lost) && o in boxes
    modifies o`box, o`dirty
    ensures boxes' == boxes[o := o.box] && Healthy(nodes, boxes', entered, lost)
    ensures Next(old(Snapshot(nodes, boxes)), Reshapes(o, o.box), Snapshot(nodes, boxes'), NO_LOSS)
  {
    hide Linked, Kept, Now;
    ghost var t := Snapshot(nodes, boxes);
    o.SetPosition(position);
    boxes' := boxes[o := o.box];
    assert Seeing(boxes').dirty == if o.dirty then t.v.dirty + {o} else t.v.dirty;
    assert Seeing(boxes').marked == t.v.marked;
    assert lost + NO_LOSS.All() == lost && entered + multiset{} == entered;
    StepKept(t, Reshapes(o, o.box), Snapshot(nodes, boxes'), NO_LOSS, entered, lost);
  }

  /** An object changes its size; negative extents must not be set again, which the object would not notice. */
  method Resize(o: GameObject, extent: Vec3, ghost boxes: Boxes, ghost nodes: Nodes,
                ghost entered: multiset<GameObject>, ghost lost: multiset<GameObject>)
    returns (ghost boxes': Boxes)
    requires Healthy(nodes, boxes, entered, lost) && o in boxes
    requires o.dirty || o.box.Proper() || extent != o.box.extent
    modifies o`box, o`dirty
    ensures boxes' == boxes[o := o.box] && Healthy(nodes, boxes', entered, lost)
    ensures Next(old(Snapshot(nodes, boxes)), Reshapes(o, o.box), Snapshot(nodes, boxes'), NO_LOSS)
  {
    hide Linked, Kept, Now;
    ghost var t := Snapshot(nodes, boxes);
    o.SetExtent(extent);
    boxes' := boxes[o := o.box];
    assert Seeing(boxes').dirty == if o.dirty then t.v.dirty + {o} else t.v.dirty;
    assert Seeing(boxes').marked == t.v.marked;
    assert lost + NO_LOSS.All() == lost && entered + multiset{} == entered;
    StepKept(t, Reshapes(o, o.box), Snapshot(nodes, boxes'), NO_LOSS, entered, lost);
  }

  /** An object is flagged for deletion. */
  method Flag(o: GameObject, ghost boxes: Boxes, ghost nodes: Nodes, ghost entered: multiset<GameObject>,
              ghost lost: multiset<GameObject>)
    requires Healthy(nodes, boxes, entered, lost) && o in boxes
    modifies o`marked
    ensures o.marked && Healthy(nodes, boxes, entered, lost)
    ensures Next(old(Snapshot(nodes, boxes)), Marks(o), Snapshot(nodes, boxes), NO_LOSS)
  {
    hide Linked, Kept, Now;
    ghost var t := Snapshot(nodes, boxes);
    o.marked := true;
    assert Seeing(boxes).marked == t.v.marked + {o} && Seeing(boxes).dirty == t.v.dirty;
    assert lost + NO_LOSS.All() == lost && entered + multiset{} == entered;
    StepKept(t, Marks(o), Snapshot(nodes, boxes), NO_LOSS, entered, lost);
  }

  /** `ObjectManager::Update` updates the top node: a tick of the run. */
  method TickTop(top: OctTree, ghost boxes: Boxes, ghost nodes: Nodes, ghost entered: multiset<GameObject>,
                 ghost lost: multiset<GameObject>)
    returns (ghost after: Nodes, ghost loss: Loss, ghost pairs: seq<Meeting>)
    requires Healthy(nodes, boxes, entered, lost) && nodes[Top] == top
    modifies nodes.Values, boxes.Keys`dirty, boxes.Keys`states
    ensures Healthy(after, boxes, entered, lost + loss.All()) && after[Top] == top
    ensures Next(old(Snapshot(nodes, boxes)), Tick, Snapshot(after, boxes), loss)
    ensures Fair(pairs, 0, Members(Stored(after))) && AllAnswered(World(after), Stored(after), Live(after), Top, pairs)
    ensures forall t <- boxes.Keys :: Noted(t, old(t.states), t.states, pairs)
    ensures EveryExact(World(after), Stored(after), Live(after)) <==>
      FlatHeld(World(after), Stored(after)) && Probing.Open(Stored(after), Live(after))
    ensures forall o <- Members(Stored(after)) :: o in boxes && !o.dirty && !o.marked
    ensures old(Seeing(boxes)).Movers() == {} ==> forall n <- after.Values :: n.built
    ensures (forall n <- after.Values :: n.built) ==> Probing.Open(Stored(after), Live(after))
    ensures EveryExact(World(after), Stored(after), Live(after)) ==>
      forall t <- boxes.Keys | t in Members(Stored(after)) ::
        t.states.Keys == old(t.states).Keys + set o | o in Members(Stored(after)) && Interacts(t, o)
  {
    hide Linked, Kept, Now, Fine, OnceBut, Total, Ticks, Follows, Fair, AllAnswered, Noted;
    hide Members, Stored, World, Live, EveryExact, FlatHeld, Probing.Open, Interacts;
    ghost var t := Snapshot(nodes, boxes);
    KeptReady(t, entered, lost);
    ghost var gone, rejected, overwritten;
    after, gone, rejected, overwritten, pairs := top.Update(boxes, {}, nodes, Top);
    FollowsTop(nodes, after, Top);
    loss := Loss(gone, rejected, overwritten);
    TickedExact(after, boxes, t.s, t.v, t.queue, gone, rejected, overwritten);
    forall x <- boxes.Keys | x in Members(Stored(after)) && EveryExact(World(after), Stored(after), Live(after))
      ensures x.states.Keys == old(x.states).Keys + set o | o in Members(Stored(after)) && Interacts(x, o)
    {
      TickedKnown(after, pairs, x, old(x.states), x.states);
    }
    StepKept(t, Tick, Snapshot(after, boxes), loss, entered, lost);
    assert entered + multiset{} == entered;
  }

  /** The same, as far as the object manager minds it. */
  method TickIndex(top: OctTree, ghost boxes: Boxes, ghost nodes: Nodes, ghost entered: multiset<GameObject>,
                   ghost lost: multiset<GameObject>)
    returns (ghost after: Nodes, ghost loss: Loss)
    requires Healthy(nodes, boxes, entered, lost) && nodes[Top] == top
    modifies nodes.Values, boxes.Keys`dirty, boxes.Keys`states
    ensures Healthy(after, boxes, entered, lost + loss.All()) && Top in after && after[Top] == top
    ensures Next(old(Snapshot(nodes, boxes)), Tick, Snapshot(after, boxes), loss)
    ensures forall o <- Members(Stored(after)) :: o in boxes && !o.marked
  {
    hide Linked, Kept, Now, Next, Members, Stored, EveryExact, FlatHeld, Probing.Open, Fair, AllAnswered, Noted,
      Interacts;
    ghost var pairs;
    after, loss, pairs := TickTop(top, boxes, nodes, entered, lost);
  }

  /** After the tick of the top every query agrees with the linear scan exactly when the flat objects are held and no
      object waits in or under a node that is not built; when no object was to move, all nodes are built. */
  lemma TickedExact(nodes: Nodes, boxes: Boxes, s: State, v: View, queue: seq<GameObject>, gone: multiset<GameObject>,
                    rejected: multiset<GameObject>, overwritten: multiset<GameObject>)
    requires Linked(nodes) && Top in nodes && Current(boxes)
    requires Ticks(s, Now(nodes), Top, v, Seeing(boxes), {}, queue, gone, rejected, overwritten)
    ensures World(nodes).Proper() && Grown(World(nodes), Stored(nodes).Keys)
    ensures EveryExact(World(nodes), Stored(nodes), Live(nodes)) <==>
      FlatHeld(World(nodes), Stored(nodes)) && Probing.Open(Stored(nodes), Live(nodes))
    ensures forall o <- Members(Stored(nodes)) :: o in boxes && !o.dirty && !o.marked
    ensures v.Movers() == {} ==> forall n <- nodes.Values :: n.built
    ensures (forall n <- nodes.Values :: n.built) ==> Probing.Open(Stored(nodes), Live(nodes))
  {
    hide Linked, Total, Calm, Outside, Grew, Tidy, AgesOutside, Sound, Grown, Rejected, Stays, Tame, Flows, Placed;
    hide Region, EveryExact, FlatHeld, Probing.Open, Held;
    var world, m, live := World(nodes), Stored(nodes), Live(nodes);
    NowNode(nodes, Top);
    TicksMembers(nodes, s, Top, v, Seeing(boxes), {}, queue, gone, rejected, overwritten);
    assert {} + Seeing(boxes).dirty == Seeing(boxes).dirty;
    TickedPlaced(Now(nodes), boxes, Seeing(boxes).dirty, Seeing(boxes).Soiled());
    HeldAfterTick(nodes, boxes);
    QueryExactIff(world, m, live);
    if v.Movers() == {} {
      forall p <- nodes.Keys ensures nodes[p].built { BelowTop(p); }
    }
    if forall n <- nodes.Values :: n.built { BuiltOpen(world, m, live); }
  }

  /** If all queries are exact, a trigger of the tree knows exactly what it knew and what it reacts to. */
  lemma TickedKnown(nodes: Nodes, pairs: seq<Meeting>, t: GameObject, before: map<GameObject, nat>,
                    after: map<GameObject, nat>)
    requires Top in nodes && World(nodes).Proper() && Grown(World(nodes), Stored(nodes).Keys)
    requires EveryExact(World(nodes), Stored(nodes), Live(nodes))
    requires Fair(pairs, 0, Members(Stored(nodes))) && AllAnswered(World(nodes), Stored(nodes), Live(nodes), Top, pairs)
    requires Noted(t, before, after, pairs) && t in Members(Stored(nodes))
    ensures after.Keys == before.Keys + set o | o in Members(Stored(nodes)) && Interacts(t, o)
  {
    hide Region, Grown, EveryExact, Probing.Open, Held, Fair, AllAnswered, Noted, Members;
    QueryExactIff(World(nodes), Stored(nodes), Live(nodes));
    KnownExact(World(nodes), Stored(nodes), Live(nodes), pairs, t, before, after);
  }

  /** A reachable state can tick. */
  lemma KeptReady(t: Index, entered: multiset<GameObject>, lost: multiset<GameObject>)
    requires Kept(t, entered, lost)
    ensures Fine(t.s, t.v.boxes, {} + t.v.dirty) && (forall o <- t.queue :: o in t.v.boxes)
    ensures OnceBut(Total(t.s.m) + multiset(t.queue), {})
  {
    hide Fine, Total;
    assert {} + t.v.dirty == t.v.dirty;
    assert Total(t.s.m) + multiset(t.queue) <= entered;
    OnceLess(Total(t.s.m) + multiset(t.queue), entered, {});
  }
}
