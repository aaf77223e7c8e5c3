# The spatial index, the wire format and the allocators of a game server

This project models the parts of darkspore_server that keep state by themselves and states what they keep.

- **The octree** (`Geometry`, `ChildMask`, `Places`, `Totals`, `Building`, `Probing`, `Aging`, `Risks`,
  `Settling`, `Ticking`, `Updating`, `Resting`, `Octrees`, `Running`, `Sessions`, `Losses`).
  `Octrees.OctTree` is the node on the heap, with its objects, queue, child slots, child mask, parent, lifespans and
  flags; its methods are `Insert`, `BuildTree`, the queries, the trigger interactions and `Update`. A ghost map from
  paths to nodes ties one tree together. Each method is proved against relations on values: where an object is put
  (`Places.Home`), what building makes of a node (`Building.Rebuilt`), what a query finds (`Probing.Finds`), what a tick
  makes of the tree (`Updating.Updated`), what it keeps (`Ticking.Ticks`) and which objects it can overwrite
  (`Risks.Risk`). `Running` looks at whole runs: objects enter, move, are marked; the top node ticks.
  `Sessions` shows that the methods on the heap take exactly these steps.
- **The TDF codec** (`Buffers`, `Labels`, `Tdf`, `RoundTrips`, `Identities`, `Writers`, `Readers`, `Packets`,
  `Samples`). `Tdf` has the values, the printer and the parser as functions; `Writers` and `Readers` are the loops over the
  byte buffer, proved to do exactly that; `Packets` is the builder with its stack of references; `Samples` has concrete
  bytes.
- **Sparse attributes** (`Attributes`), **the task scheduler** (`Schedulers`), **effect slots** (`EffectLists`) and **the object
  manager** (`ObjectManagers`): a state, its steps, what every run keeps, and the class that takes the steps. The manager
  owns an octree: creating an object puts it into the queue of the top node, and the update of the manager ticks it.

Conventions. Coordinates, attribute values and weapon damage are exact reals. Bytes are integers from 0 to 255; masks and
shifts by constants are written as remainders, quotients and factors, an `or` of disjoint bits as a sum; only the child
mask is a bit vector. `int8_t` wraps in `Aging.Int8`, `uint8_t` sizes are taken modulo 256, id counters modulo 2^32. The
clock, the id counter of a thread and the positions given to objects are parameters. A JSON object with a `_Type` is a
constructor of `Tdf.Value`; where the writer keeps members under `_Content` and the parser keeps them in the object itself,
both are the members of that constructor.

## What the code does not keep

- `BuildTree` assigns child slots without looking (octree.cpp:208). A node that got children by insertion before its first
  update loses what lies under the corners it fills: `Building.RebuiltConservesIff`, `Losses.TickLosesQueued`. `Update`
  therefore accounts for objects in three classes: marked, rejected at the top, overwritten.
- For the same reason a tick of a fully built tree with an empty queue can lose a moved object that lies well inside the
  world: `Losses.TickLosesMover`. It takes three such objects that left the regions of their nodes: `Ticking.BuiltTickExact`.
  In general it takes three objects that are at risk or in the queue (`Risks.Risk`): `Ticking.TameTickExact`,
  `Running.AfterTameTick`.
- A moved object that lies outside the world is erased and then rejected (octree.cpp:123-124, 233-239): `Places.HomeRejects`.
- Flat boxes are relocated from the node they are in, and a vacant or small node takes any box (octree.cpp:93-102, 219-228):
  `Ticking.FlatStraysIff`, `Losses.FlatObjectStays`.
- A node created during a tick answers no query before its own first update (octree.cpp:312): `Probing.QueryExactIff`,
  `Losses.MovedUnseen`.
- The 8-bit maximum lifespan wraps (octree.cpp:45-47): `Aging.OnlyFourRefillsLast`.
- The parser returns a blob as a string, drops the labels in a stub list and overwrites members with equal labels
  (tdf.cpp:229-239, 286-293, 129-131): `RoundTrips.Reread` says what comes back, `Identities.RereadIdentity` when it is the same.
- The size of a list or a map is one byte: 256 items are announced as none, and those of a list are not written
  (tdf.cpp:680, 714, 740): `Samples.FullLists`.
- The parser does not read the items of a list of another type than integer, string or struct (tdf.cpp:271-324):
  `RoundTrips.OtherListEmpty`.
- `SetValue` erases past the end of the erased list after a zero write to an absent attribute (attributes.cpp:38-41):
  `Attributes.RunDefinedIff`.
- Adding threads have counters of their own (scheduler.cpp:44), and a task whose id was used up by another is dropped:
  `Schedulers.TwoThreadsDropTask`. The worker does not check for an empty queue after its wait (scheduler.cpp:24):
  `Schedulers.StuckIff`, `Schedulers.ShutdownSticks`.
- Adding an effect that is already there leaks its old index (object.cpp:41-47): `EffectLists.AddLeaksIff` and
  `EffectLists.RunLeaksIff` say when none leaks, `EffectLists.SameEffectAgain` is the worst case.
- An object that a tick callback marks for deletion is deleted at once but stays in the octree until its next tick
  (objectmanager.cpp:290-316): `ObjectManagers.ObjectManager.Update`.

## Model

| member | source | states |
|---|---|---|
| Geometry.ContainsMeansSubset | darkspore_server/source/game/collision.cpp:38-42 | a box contains another exactly when it covers all its points |
| Geometry.IntersectsMeansCommonPoint | darkspore_server/source/game/collision.cpp:49-53 | two boxes intersect exactly when they have a point in common |
| Geometry.ClosestIsNearest | darkspore_server/source/game/collision.cpp:130-133 | the clamped centre is the point of the box nearest to the sphere |
| Geometry.SphereIntersectsMeansCommonPoint | darkspore_server/source/game/collision.cpp:130-133 | a sphere intersects a box exactly when a point of the box is within the radius |
| Geometry.FlatMeansNoInnerPoint | darkspore_server/source/game/collision.cpp:29-31 | a box is flat exactly when it has no inner point |
| Geometry.HitsGrows | darkspore_server/source/game/octree.cpp:334-341 | pruning step: a probe that hits a box hits every box around it |
| Geometry.OctantsCover | darkspore_server/source/game/octree.cpp:153-165 | the octants leave no point of the region out |
| Geometry.OctantUnique | darkspore_server/source/game/octree.cpp:174-182 | a box that is not flat fits in at most one octant, so the order of the corners does not matter |
| ChildMask.ShiftedDue | darkspore_server/source/game/octree.cpp:84-88 | the loop over a shifted copy of the child mask visits exactly the children set at its start |
| Places.HomeShape | darkspore_server/source/game/octree.cpp:218-276 | the place chosen by an insertion is one where the box may rest, and a new node keeps the shape of the tree |
| Places.HomeContains | darkspore_server/source/game/octree.cpp:218-276 | the chosen region contains the box exactly when the starting node does, or is neither vacant nor small and lets it climb |
| Places.HomeRejects | darkspore_server/source/game/octree.cpp:219-240 | an insertion is rejected exactly when the starting node is neither vacant nor small and the world does not contain the box |
| Places.DescendRests | darkspore_server/source/game/octree.cpp:258-275 | the descent passes occupied nodes only, goes to the first octant that contains the box, and ends where the box rests |
| Octrees.OctTree.CreateNode | darkspore_server/source/game/octree.cpp:457-479 | a new child holds the given objects, knows its parent and was never updated |
| Octrees.OctTree.Attach | darkspore_server/source/game/octree.cpp:206-208 | assigning a child slot drops the subtree that was there, sets the bit and keeps the tree linked |
| Octrees.OctTree.FirstCorner | darkspore_server/source/game/octree.cpp:247-260 | the first corner whose region contains the box |
| Octrees.OctTree.Insert | darkspore_server/source/game/octree.cpp:218-297 | the object is appended at the one place the geometry names, every other node keeps its objects, or nothing changes and the answer is false |
| Octrees.OctTree.SortOut | darkspore_server/source/game/octree.cpp:167-183 | which object goes to which octant, and which positions leave the node |
| Octrees.OctTree.BuildTree | darkspore_server/source/game/octree.cpp:137-211 | the whole new tree: the objects of the node shared out over new children, everything under a corner that is assigned anew gone |
| Building.BuiltConserves | darkspore_server/source/game/octree.cpp:137-211 | the built subtree holds exactly the objects it was given, each as often |
| Building.BuiltWell | darkspore_server/source/game/octree.cpp:167-210 | every object that moved down lies in the region of its new node, and no node built needs further division: its region is small, it holds one object inside, or none that is not flat fits into an octant |
| Building.BuiltAlone | darkspore_server/source/game/octree.cpp:137-208 | one object on its own stops in the first region that contains it, or in a small one; from a region that does not contain it, it goes to the octant that does, unless it is flat |
| Building.RebuiltAccounts | darkspore_server/source/game/octree.cpp:198-210 | what is not in the rebuilt tree was under a corner that was assigned anew |
| Building.RebuiltConservesIff | darkspore_server/source/game/octree.cpp:198-210 | building keeps every object exactly when no object lies under a corner that is assigned anew |
| Building.RebuildTwice | darkspore_server/source/game/octree.cpp:17-25 | building a built node again changes nothing |
| Losses.ThreeInserted | darkspore_server/source/game/octree.cpp:218-276 | concrete run: three inserts leave a new node with two objects and a child |
| Losses.FirstUpdateLosesObject | darkspore_server/source/game/octree.cpp:17-25 | concrete run: the first update of that node throws the object of the child away |
| Losses.TickLosesQueued | darkspore_server/source/game/octree.cpp:17-88 | concrete: one tick of a built top node with three queued objects inside the world loses the third |
| Octrees.OctTree.GetObjects | darkspore_server/source/game/octree.cpp:311-373 | a box or sphere query finds, as a multiset, what the nodes it reaches hold of the wanted types, and nothing else; a node that is not built finds nothing |
| Probing.QueryExact | darkspore_server/source/game/octree.cpp:311-373 | in an open tree that holds its objects a query finds what a linear scan finds, each object as often as it is stored |
| Probing.QueryExactIff | darkspore_server/source/game/octree.cpp:311-373 | all box queries agree with the linear scan exactly when objects lie in the regions of their nodes and none is in or under a node that is not built, and then all queries do |
| Probing.QueryFinds | darkspore_server/source/game/octree.cpp:311-373 | object by object: in an open tree that holds its objects a query finds an object as often as it is stored if it hits its box and its type is among those given, or none is given, and otherwise not at all |
| Probing.NodeFinds | darkspore_server/source/game/octree.cpp:322-364 | the same at each node a query reaches, wherever it starts |
| Octrees.OctTree.LocalTriggers | darkspore_server/source/game/octree.cpp:378-402 | the active triggers of one node, and only pairs that really interact |
| Octrees.OctTree.GetTriggerInteractions | darkspore_server/source/game/octree.cpp:375-455 | only real interactions are reported, and every active trigger at or below the node is paired with all it sees from the top |
| Probing.SeenExact | darkspore_server/source/game/octree.cpp:414-416 | a trigger sees exactly the stored objects its box intersects |
| Probing.InteractionsExact | darkspore_server/source/game/octree.cpp:375-455 | the reported pairs are exactly stored active triggers with stored objects that are not triggers, not their owner, and intersect them |
| GameObjects.GameObject.AddObject | darkspore_server/source/game/objectmanager.cpp:81-90 | a trigger adds an object it does not know with state 0, and never its owner |
| Octrees.OctTree.Interact | darkspore_server/source/game/octree.cpp:127-134 | at the top every reported pair is noted at its trigger |
| Probing.KnownExact | darkspore_server/source/game/octree.cpp:127-134 | afterwards a trigger knows exactly what it knew and what it interacts with |
| GameObjects.GameObject.SetPosition | darkspore_server/source/game/object.cpp:935-941 | only a changed position makes the object dirty |
| GameObjects.GameObject.SetExtent | darkspore_server/source/game/object.cpp:978-984 | extents are kept non-negative; exactly when a changed box makes the object dirty |
| Octrees.OctTree.InsertQueue | darkspore_server/source/game/octree.cpp:26-31 | the tree and the rejects are those of inserting the queue one after the other at the top, each where it then belongs |
| Settling.QueueOutIs | darkspore_server/source/game/octree.cpp:219-240 | rejected are exactly the queued objects outside the world, but for the one that comes first to a vacant top node; a small world rejects none |
| Octrees.OctTree.Settle | darkspore_server/source/game/octree.cpp:17-33 | the exact tree afterwards: a node never built joins the queue to its objects and is built, a built one inserts the queue; the flags are set and every queued object is accounted for |
| Octrees.OctTree.StepLifespan | darkspore_server/source/game/octree.cpp:35-50 | the lifespan rules with the 8-bit maximum |
| Aging.DesertedExpires | darkspore_server/source/game/octree.cpp:35-42 | a deserted node reaches lifespan 0 exactly when its maximum is not negative, and then in tick maximum + 1 |
| Aging.OnlyFourRefillsLast | darkspore_server/source/game/octree.cpp:43-50 | the 8-bit maximum wraps: only nodes refilled exactly four times never expire |
| Ticking.ExpiredKeeps | darkspore_server/source/game/octree.cpp:71-82 | deleting an expired empty child discards no object, in every reachable state |
| Octrees.OctTree.Unmarked | darkspore_server/source/game/octree.cpp:52-58 | exactly objects marked for deletion are erased |
| Octrees.OctTree.TakeMoved | darkspore_server/source/game/octree.cpp:60-69 | the dirty objects of the node are collected once each, in the order of the list, and become clean |
| Octrees.OctTree.Expire | darkspore_server/source/game/octree.cpp:71-82 | the exact tree after the expiry loop, which keeps every object |
| Resting.ExpiredIs | darkspore_server/source/game/octree.cpp:71-82 | the expiry loop deletes exactly the empty children whose lifespan ran out, saves those that hold objects, and changes no other node |
| Resting.NoneRunOut | darkspore_server/source/game/octree.cpp:71-82 | afterwards no child has a lifespan of 0 |
| Octrees.OctTree.UpdateChildren | darkspore_server/source/game/octree.cpp:84-88 | the children active when the loop began are updated, and no dirty or marked object is left under the node |
| Octrees.OctTree.ClimbFrom | darkspore_server/source/game/octree.cpp:90-101 | the climb stops at the nearest region that contains the box, or at the top |
| Octrees.OctTree.Relocate | darkspore_server/source/game/octree.cpp:90-125 | a moved object leaves its node and is inserted where its box belongs |
| Ticking.MoveIn | darkspore_server/source/game/octree.cpp:90-125 | a relocated object needs no exemption any more: it is in its place, or outside the world and gone |
| Ticking.TicksBy | darkspore_server/source/game/octree.cpp:16-125 | settling, aging, updating the children and relocating together make a tick |
| Octrees.OctTree.Update | darkspore_server/source/game/octree.cpp:16-135 | one update: exactly the tree that `Updating.Updated` computes, sound and linked, all objects accounted for, nothing overwritten with fewer than three objects at risk, clean objects of built nodes stay, nothing dirty or marked stored below, all nodes built if none was to move, and at the top the interactions noted |
| Updating.AbsentUpdated | darkspore_server/source/game/octree.cpp:16-125 | no update brings in an object that was neither stored nor waiting |
| Resting.RestedIs | darkspore_server/source/game/octree.cpp:16-125 | the exact tree after a tick of a fully built subtree with nothing to move: marked objects erased, the empty nodes whose lifespan had run out deleted, every other node aged by the rules, nothing else changed |
| Resting.LeafEnds | darkspore_server/source/game/octree.cpp:35-82 | over many such ticks an empty leaf survives exactly as many as its maximum says and one more |
| Octrees.HeldAfterTick | darkspore_server/source/game/octree.cpp:90-125 | after a tick the objects lie in the regions of their nodes exactly when the flat ones do |
| Ticking.CalmTickExact | darkspore_server/source/game/octree.cpp:16-125 | a calm tick, in which no moved object left the region of its node and no node still to be built has a child at a corner it will fill, keeps exactly the stored objects that were not marked |
| Risks.FillsTwo | darkspore_server/source/game/octree.cpp:137-208 | a node that throws something away when it is built holds at least two objects itself |
| Risks.RebuiltTame | darkspore_server/source/game/octree.cpp:17-25 | the first build of a node overwrites nothing unless three objects are stored in its subtree |
| Ticking.TameTickExact | darkspore_server/source/game/octree.cpp:16-125 | with fewer than three objects at risk and an empty queue a tick overwrites nothing: stored are exactly the unmarked objects but for those that moved out of the world |
| Ticking.BuiltTickExact | darkspore_server/source/game/octree.cpp:16-125 | in a fully built tree the objects at risk are the unmarked ones that moved out of the region of their node, flat ones included: fewer than three, and nothing is overwritten |
| Ticking.OnlySoiledLost | darkspore_server/source/game/octree.cpp:16-125 | a tick of a fully built tree with an empty queue loses only objects that were dirty or marked |
| Ticking.FlatStraysIff | darkspore_server/source/game/octree.cpp:93-125 | a flat object that moved ends inside its region exactly when it stayed in the region it was in, or its node is neither vacant nor small without it |
| Losses.FlatObjectStays | darkspore_server/source/game/octree.cpp:93-125 | concrete: a flat object alone in a leaf stays there wherever it moves |
| Losses.TickLosesMover | darkspore_server/source/game/octree.cpp:84-125 | the bound is sharp: one tick of a fully built tree with an empty queue and three objects astray loses one of them well inside the world |
| Losses.MovedUnseen | darkspore_server/source/game/octree.cpp:84-125 | concrete: an object moved into an octant without a node is, after the tick, in a new node there that is not built |
| Octrees.OctTree.Enqueue | darkspore_server/source/game/octree.cpp:213-216 | the object waits at the end of the queue and the node is not ready |
| Running.RunKept | darkspore_server/source/game/octree.cpp:16-216 | in every state of every run the tree is sound and every object that entered is stored once, waiting once, or lost in a tick |
| Running.AfterTick | darkspore_server/source/game/octree.cpp:16-135 | after every tick of every run nothing stored is dirty or marked, what is not flat is in its region, clean objects stayed, and losses have a reason |
| Running.AfterQuietTick | darkspore_server/source/game/octree.cpp:16-125 | in every run, the exact tree after a tick with nothing waiting, nothing to move and every node built |
| Running.AfterTameTick | darkspore_server/source/game/octree.cpp:16-125 | in every run a tick overwrites something only if three objects are at risk or in the queue |
| Running.TwoNeverLost | darkspore_server/source/game/octree.cpp:16-216 | an index that at most two objects ever entered never overwrites one |
| Sessions.Open | darkspore_server/source/game/octree.cpp:14 | a new top node over the default world is a run that has not begun |
| Sessions.Enter | darkspore_server/source/game/objectmanager.cpp:164-176 | enqueueing a new object is a step of a run and keeps the tree reachable |
| Sessions.Move | darkspore_server/source/game/object.cpp:935-941 | moving an object is a step of a run and keeps the tree reachable |
| Sessions.Resize | darkspore_server/source/game/object.cpp:978-984 | changing the size of an object is a step of a run and keeps the tree reachable |
| Sessions.Flag | darkspore_server/source/game/object.cpp:1363-1366 | flagging an object for deletion is a step of a run and keeps the tree reachable |
| Sessions.TickTop | darkspore_server/source/game/objectmanager.cpp:289-290 | updating the top node is a tick of a run, with the losses in the books and the interactions noted; afterwards every query equals the linear scan exactly when the flat objects are held and the tree is open, which a tick without moved objects makes it, and then every trigger knows exactly what it knew and what it meets |
| Buffers.DataBuffer.Write | darkspore_server/source/databuffer.cpp:59-70 | bytes are written over the contents from the position on; the capacity grows by 64, then by 1024 at a time, and never shrinks |
| Buffers.CapacityIs | darkspore_server/source/databuffer.cpp:29-35 | the capacity after growing is the least sufficient one of 64, 1088, 2112 and so on, or of the present one in steps of 1024 |
| Buffers.DataBuffer.Read | darkspore_server/source/databuffer.cpp:48-57 | bytes are read up to the capacity, or nothing is |
| Buffers.DataBuffer.Insert | darkspore_server/source/databuffer.cpp:154-157 | the contents of the other buffer are appended to the contents |
| Buffers.DataBuffer.EncodeTdfInteger | darkspore_server/source/databuffer.cpp:72-86 | the variable-length code of the integer is written, as `VarintBytes` spells it out |
| Buffers.VarintBytes | darkspore_server/source/databuffer.cpp:72-86 | the code byte by byte: one byte exactly below 64; otherwise the low six bits, then seven at a time, with the high bit in all but the last, which is not 0 |
| Buffers.DataBuffer.DecodeTdfInteger | darkspore_server/source/databuffer.cpp:88-107 | the integer at the position is read, in at most eight bytes |
| Buffers.ReadVarintIs | darkspore_server/source/databuffer.cpp:88-107 | what any bytes are read as, and how many of them; nothing is read exactly from fewer than eight without an end |
| Buffers.VarintRoundIff | darkspore_server/source/databuffer.cpp:72-107 | decoding gives the integer back and consumes exactly its bytes, whatever follows, if and only if it is below 2^55 |
| Buffers.VarintCut | darkspore_server/source/databuffer.cpp:72-107 | a larger integer comes back modulo 2^55 and leaves its bytes from the ninth on |
| Labels.CompressLabel | darkspore_server/source/blaze/tdf.cpp:36-42 | the packed label as a sum of six-bit groups with its bytes reversed |
| Labels.LabelRound | darkspore_server/source/blaze/tdf.cpp:36-56 | unpacking a packed label gives its first four characters, each mapped to 0x40 | (c & 0x1F) |
| Labels.NormalIff | darkspore_server/source/blaze/tdf.cpp:36-56 | labels are kept exactly when they have at most four characters from 0x40 to 0x5F |
| Labels.HeaderRound | darkspore_server/source/blaze/tdf.cpp:58-74 | a header gives back the normalised label and the type, and is four bytes long |
| Labels.HeaderBits | darkspore_server/source/blaze/tdf.cpp:58-74 | the four bytes of a header, bit by bit |
| Labels.HeaderLabelIs | darkspore_server/source/blaze/tdf.cpp:45-56 | the label that any three bytes are read as |
| Labels.HeaderFirst | darkspore_server/source/blaze/tdf.cpp:247-251 | a header begins with a byte of at least 0x80 if it has a label, and with 0 otherwise |
| Tdf.DecimalRound | darkspore_server/source/blaze/tdf.cpp:366-368 | a number printed in decimal is read back |
| Tdf.ParsedRound | darkspore_server/source/blaze/tdf.cpp:649-651 | a decimal key that is read as a number is printed back unchanged |
| Writers.WriteMembers | darkspore_server/source/blaze/tdf.cpp:530-534 | members are written one after the other, each with its header |
| Writers.WriteValue | darkspore_server/source/blaze/tdf.cpp:642-767 | the bytes of one value, type by type, items and entries by the announced type |
| Writers.WriteAs | darkspore_server/source/blaze/tdf.cpp:642-767 | the bytes of an item under the announced type, where that differs from its own |
| Samples.TypeSamples | darkspore_server/source/blaze/tdf.cpp:58-74 | the type number that each kind of value announces |
| Samples.PlainSamples | darkspore_server/source/blaze/tdf.cpp:647-675 | concrete bytes of an integer, a string and a blob, and of both kinds of object names (tdf.cpp:750-761) |
| Samples.ListSample | darkspore_server/source/blaze/tdf.cpp:708-729 | concrete bytes of a list |
| Samples.StubSample | darkspore_server/source/blaze/tdf.cpp:708-722 | concrete bytes of a stub list |
| Samples.MapSample | darkspore_server/source/blaze/tdf.cpp:731-748 | concrete bytes of a map |
| Samples.UnionSamples | darkspore_server/source/blaze/tdf.cpp:689-698 | concrete bytes of a union, and of one that is not set |
| Samples.MixedSamples | darkspore_server/source/blaze/tdf.cpp:642-767 | concrete bytes of items that stand for another type than their own |
| Samples.FullLists | darkspore_server/source/blaze/tdf.cpp:677-748 | 256 items are announced as none, and those of a list or a list of integers are not written |
| Readers.ReadMember | darkspore_server/source/blaze/tdf.cpp:123-219 | a header and its value are read and added to the parent, by name to an object, at the end to an array; a header at the very end is dropped |
| Readers.ReadValue | darkspore_server/source/blaze/tdf.cpp:151-217 | a value of any type is read exactly as the grammar says, and the position is behind it |
| Readers.ReadList | darkspore_server/source/blaze/tdf.cpp:271-324 | a list of structs is taken for a stub exactly when the marker follows its size |
| Readers.Parser.Read | darkspore_server/source/blaze/tdf.cpp:116-149 | the document is read up to the end of the buffer |
| RoundTrips.ValueRound | darkspore_server/source/blaze/tdf.cpp:221-414 | parsing what was printed gives the value back and consumes exactly the bytes printed, whatever well-formed data follows, at any nesting |
| RoundTrips.DocumentRound | darkspore_server/source/blaze/tdf.cpp:116-121 | parsing a printed document gives the document back |
| RoundTrips.MergedLast | darkspore_server/source/blaze/tdf.cpp:123-138 | of members with equal labels the last is read back |
| RoundTrips.UpsertIs | darkspore_server/source/blaze/tdf.cpp:123-138 | a new label goes to the end of an object, a known one keeps its place and takes the new value |
| RoundTrips.OtherListEmpty | darkspore_server/source/blaze/tdf.cpp:271-324 | of a list of any other type than integer, string or struct nothing is read but its type and size |
| RoundTrips.Unambiguous | darkspore_server/source/blaze/tdf.cpp:642-767 | the code is prefix-free: equal beginnings mean equal values and equal ends |
| RoundTrips.EmptyLabelEnds | darkspore_server/source/blaze/tdf.cpp:247-251 | a member without label is taken for the end of its struct |
| Identities.RereadIdentity | darkspore_server/source/blaze/tdf.cpp:123-414 | a value is read back unchanged exactly when it has no blob, no stub list, no NUL, and plain labels, distinct in each struct |
| Identities.DocumentIdentity | darkspore_server/source/blaze/tdf.cpp:116-138 | the same for a whole document |
| Packets.Packet.AddMember | darkspore_server/source/blaze/tdf.cpp:611-625 | the value is appended to the content on top of the stack, and the reference leads to it |
| Packets.Packet.PutValue | darkspore_server/source/blaze/tdf.cpp:423-471 | a value joins the innermost open container, under its label unless that is a list |
| Packets.Packet.PushContainer | darkspore_server/source/blaze/tdf.cpp:473-521 | the new container is open and innermost; `PushedAndPopped` says what it becomes |
| Packets.Packet.PopContainer | darkspore_server/source/blaze/tdf.cpp:523-527 | the innermost container is closed; at the root nothing happens |
| Packets.PushedAndPopped | darkspore_server/source/blaze/tdf.cpp:473-527 | what a push, the operations inside it and a pop leave behind, kind by kind: one value at the end of the content around it, without its label in a list |
| Packets.PacketBuilds | darkspore_server/source/blaze/tdf.cpp:417-527 | any sequence of operations builds what direct recursive construction builds, surplus pops and unclosed containers included |
| Packets.PacketRound | darkspore_server/source/blaze/tdf.cpp:417-534 | what is built, written and parsed is the direct construction, read back |
| Samples.ChatMessage | darkspore_server/source/blaze/functions.cpp:431-443 | concrete: the bytes of a message with a map, an integer and an object name, built step by step |
| Packets.Packet.Write | darkspore_server/source/blaze/tdf.cpp:530-534 | the document is written over the buffer |
| Attributes.AttributeSet.GetValue | darkspore_server/source/game/attributes.cpp:12-21 | the stored value, 0 when absent |
| Attributes.AttributeSet.SetValue | darkspore_server/source/game/attributes.cpp:27-60 | the new vector, erased list and bits after a write that does not erase past the end |
| Attributes.WrittenIs | darkspore_server/source/game/attributes.cpp:27-60 | a write changes its own attribute to the value and no other, and keeps the vector sorted and the lists free of duplicates |
| Attributes.AttributeSet.WriteReflection | darkspore_server/source/game/attributes.cpp:108-123 | the reported pairs: written stored attributes, erased ones as 0, the weapon damage |
| Attributes.ReflectionOnce | darkspore_server/source/game/attributes.cpp:108-123 | no attribute is reported twice |
| Attributes.RunReflects | darkspore_server/source/game/attributes.cpp:27-128 | after any defined run of writes since a reset, the report applied to the attributes at the reset gives the attributes as they are |
| Attributes.RunDefinedIff | darkspore_server/source/game/attributes.cpp:38-41 | a run of writes is defined exactly when no attribute absent at the reset is first written 0 and later something else |
| Attributes.ZeroThenOne | darkspore_server/source/game/attributes.cpp:38-41 | concrete: an absent attribute set to 0 and then to 1 erases past the end |
| Attributes.AttributeSet.ResetReflectionBits | darkspore_server/source/game/attributes.cpp:125-128 | after a reset nothing is reported |
| Schedulers.Scheduler.AddTask | darkspore_server/source/scheduler.cpp:43-70 | the task joins the queue under the next id of its thread, due exactly the delay from now; the worker is notified if it is due before all others, and only if no other is due before it; 0 after shutdown began |
| Schedulers.Scheduler.CancelTask | darkspore_server/source/scheduler.cpp:72-81 | the id is no longer registered |
| Schedulers.Scheduler.LookForWork | darkspore_server/source/scheduler.cpp:9-17 | the worker ends, or waits for the task on top if there is one |
| Schedulers.Scheduler.TakeTask | darkspore_server/source/scheduler.cpp:19-38 | the task on top when the wait ran out is taken, and runs if its id is registered |
| Schedulers.Scheduler.DrainQueue | darkspore_server/source/scheduler.cpp:85-93 | shutdown empties the queue and the ids |
| Schedulers.NeverEarly | darkspore_server/source/scheduler.cpp:9-38 | in every interleaving no task is taken or runs before its execution point |
| Schedulers.DelayPassed | darkspore_server/source/scheduler.cpp:43-70 | in every interleaving a task is taken no earlier than its delay after the step that added it |
| Schedulers.IdsInTurn | darkspore_server/source/scheduler.cpp:43-55 | in every run a thread gives out the ids from 1 to 2^32 - 1 in turn and then again |
| Schedulers.EndedForGood | darkspore_server/source/scheduler.cpp:9-17 | the worker ends only after shutdown began, and then takes no task |
| Schedulers.OneAfterStop | darkspore_server/source/scheduler.cpp:9-38 | after shutdown began it takes at most one more |
| Schedulers.AllAccounted | darkspore_server/source/scheduler.cpp:24-81 | with fresh ids and no drain every added task is waiting, ran once or was dropped; only cancelled tasks are dropped and none of them ran; the registered ids are those of the waiting tasks not cancelled |
| Schedulers.RunsIff | darkspore_server/source/scheduler.cpp:27-38 | in every run a taken task runs exactly when, since the last add that gave out its id, that id was neither cancelled nor used up by another taken task |
| Schedulers.OneThreadFresh | darkspore_server/source/scheduler.cpp:43-55 | with one adding thread and fewer than 2^32 tasks ids are always fresh |
| Schedulers.TwoThreadsDropTask | darkspore_server/source/scheduler.cpp:44-61 | concrete run: with two adding threads a task is dropped though nothing was cancelled |
| Schedulers.StuckIff | darkspore_server/source/scheduler.cpp:12-25 | in every run the worker finds the queue empty after its wait exactly when the wait ran out and shutdown drained the queue since the worker last looked |
| Schedulers.StuckOnlyStopped | darkspore_server/source/scheduler.cpp:12-25 | so only after shutdown began |
| Schedulers.ShutdownSticks | darkspore_server/source/scheduler.cpp:83-94 | concrete run: then it can |
| EffectLists.AddIs | darkspore_server/source/game/object.cpp:87-102 | 0 exactly when 255 indexes are in use, otherwise an index from 1 to 255 that nobody held |
| EffectLists.RemoveIs | darkspore_server/source/game/object.cpp:49-67 | the index of the effect is free again; 0 when the effect is not there |
| EffectLists.RemoveByIndexIs | darkspore_server/source/game/object.cpp:69-85 | a used index is free again together with the effect that holds it |
| EffectLists.AddLeaks | darkspore_server/source/game/object.cpp:41-47 | exactly which used index loses its effect when an effect is added |
| EffectLists.AddLeaksIff | darkspore_server/source/game/object.cpp:41-47 | adding leaves every used index with an effect exactly when the effect is new or all indexes are in use |
| EffectLists.RemoveLeaks | darkspore_server/source/game/object.cpp:49-67 | removing an effect leaks nothing |
| EffectLists.RemoveIndexLeaks | darkspore_server/source/game/object.cpp:69-85 | removing by index takes that index off the leaked ones |
| EffectLists.RunLeaks | darkspore_server/source/game/object.cpp:41-102 | the leaked indexes after any run |
| EffectLists.RunLeaksIff | darkspore_server/source/game/object.cpp:41-102 | no index is leaked in any state of a run exactly when every effect added was new or all indexes were in use |
| EffectLists.RunWhole | darkspore_server/source/game/object.cpp:41-102 | after every run used and open indexes are a permutation of 1..N with N at most 255, and effects have different used indexes |
| EffectLists.SameEffectAgain | darkspore_server/source/game/object.cpp:41-47 | adding one effect again and again uses up all indexes |
| EffectLists.EffectList.AddEffect | darkspore_server/source/game/object.cpp:41-47 | the object does what `AddIs` speaks of |
| EffectLists.EffectList.RemoveEffect | darkspore_server/source/game/object.cpp:49-67 | the object does what `RemoveIs` speaks of |
| EffectLists.EffectList.RemoveIndex | darkspore_server/source/game/object.cpp:69-85 | the object does what `RemoveByIndexIs` speaks of |
| ObjectManagers.ObjectManager.Create | darkspore_server/source/game/objectmanager.cpp:158-181 | a new object under the next id that waits at the end of the queue of the octree, or null when the id is 0 or in use |
| ObjectManagers.ObjectManager.Get | darkspore_server/source/game/objectmanager.cpp:151-156 | the object with that id, or null |
| ObjectManagers.ObjectManager.MarkForDeletion | darkspore_server/source/game/object.cpp:1363-1366 | the object is noted once and flagged |
| ObjectManagers.ObjectManager.DeleteMarked | darkspore_server/source/game/objectmanager.cpp:298-316 | the noted objects are removed and their ids can be used again |
| ObjectManagers.ObjectManager.Update | darkspore_server/source/game/objectmanager.cpp:289-316 | a tick of the octree and then the deletions: what the octree stores afterwards is live under its id unless a tick callback marked it |
| ObjectManagers.ObjectManager.GetNextObjectId | darkspore_server/source/game/objectmanager.cpp:324-340 | a recycled id if there is one, else the 32-bit counter |
| ObjectManagers.LastMarkedFirst | darkspore_server/source/game/objectmanager.cpp:298-340 | recycled ids are given out last marked first, and the counter only when there is none |
| ObjectManagers.RunSane | darkspore_server/source/game/objectmanager.cpp:158-340 | in every run live and recycled ids are disjoint and free of duplicates and the active objects are the live ones, whatever the counter does |
| ObjectManagers.FoundUntilDeleted | darkspore_server/source/game/objectmanager.cpp:151-156 | no live object is overwritten: it is found under its id until its deletion is processed |
| ObjectManagers.GoneForGood | darkspore_server/source/game/objectmanager.cpp:298-316 | and then it never is live, active or noted again |

## Left out

- Ticking.CalmTickExact: one direction only, as is `Ticking.TameTickExact`. Which object is overwritten with three or more at risk depends on the order in which nodes are created within the tick; the losses of any tick are accounted for in `Ticking.Ticks`, `Updating.Updated` computes its outcome, and three is sharp.
- ObjectManagers.ObjectManager.Update: of `OnTick` only that it may mark objects; objects it creates or moves are further steps of the run.
- Schedulers.DelayPassed: the clock is not set back; setting the system clock is outside the model.
- Schedulers.AllAccounted: that a fresh id is given out is a condition on each add; `Schedulers.RunsIff` says without it which tasks run.
- Octrees.OctTree.Update: an object that is stored or queued more than once is not claimed to be in its place afterwards; the object manager enqueues each object once.
- Readers.Parser.Read: input on which the grammar fails, where the source reads uninitialised values or does not stop, is outside the contract.
- Readers.ReadList: at the end of the capacity the source peeks at an uninitialised byte; here no byte is seen there.
- Writers.WriteMembers: bare arrays as members, which the builder cannot make, are not values of the model; keys of integer maps and strings in integer lists are decimal numbers without leading zeros; an item of another type than announced for which the source stops at an assertion of its JSON library is written by its own type.
- RoundTrips.ValueRound: lists and maps of more than 255 entries, lists of other types than integer, string and struct, and unions with several members are not written in a form the parser can read, and are not covered.
- Buffers.DataBuffer.Write: `resize` and `reserve` from outside, which can cut contents off, and the fixed-width and big-endian accessors.
- The sizes and types that the parser stores beside the content of lists and maps: they repeat the content.
- The second interface of the packet (`Put...`, `Create...`), which fills the same document through references it hands out.
- Rounding of floating-point coordinates: octants tile exactly over reals only.
- The memory of deleted nodes and tasks.
- `WriteTo` of the attributes and all bit-stream layouts: libraries that are not part of this model.
- The rest of `OnTick`, the scripts it calls and the states of a trigger after 0: behaviour of the scripts.
- Sockets, sessions, HTTP routing, XML loading, locomotion, combat and AI: plumbing, field-by-field reads or unfinished stubs.
- The packet framing in blaze/client.cpp: the declared length does not bound the parser.
