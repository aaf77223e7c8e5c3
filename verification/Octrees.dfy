/** The octree of game/octree.cpp: nodes on the heap, linked to their parent and to eight child slots. */
module Octrees {
  import opened Geometry
  import opened Options
  import opened Sequences
  import opened GameObjects
  import opened Places
  import opened Totals
  import opened Building
  import opened ChildMask
  import opened Probing
  import opened Aging
  import opened Risks
  import opened Settling
  import opened Updating
  import opened Ticking

  /** The nodes of one tree by their path from the top node. */
  type Nodes = map<Path, OctTree>

  function World(nodes: Nodes): BoundingBox
    requires Top in nodes
  {
    nodes[Top].region
  }

  /** The built nodes. */
  ghost function Live(nodes: Nodes): set<Path>
    reads nodes.Values`built
  {
    set p | p in nodes && nodes[p].built
  }

  ghost function Ages(nodes: Nodes): map<Path, Age>
    reads nodes.Values`lifespan, nodes.Values`maxLifespan, nodes.Values`built, nodes.Values`ready, nodes.Values`queue
  {
    map p | p in nodes :: AgeOf(nodes[p])
  }

  ghost function AgeOf(n: OctTree): Age
    reads n`lifespan, n`maxLifespan, n`built, n`ready, n`queue
  {
    Age(n.lifespan, n.maxLifespan, n.built, n.ready, n.queue != [])
  }

  /** The stored objects, node by node. */
  ghost function Stored(nodes: Nodes): map<Path, seq<GameObject>>
    reads nodes.Values`objects
  {
    map p | p in nodes :: nodes[p].objects
  }

  /** How one node is tied to the others. */
  datatype Tie = Tie(region: BoundingBox, child: seq<OctTree?>, mask: bv8, parent: OctTree?)

  ghost function Ties(nodes: Nodes): map<Path, Tie>
    reads nodes.Values`child, nodes.Values`active, nodes.Values`parent
  {
    map p | p in nodes :: TieOf(nodes[p])
  }

  const NO_CHILDREN: seq<OctTree?> := [null, null, null, null, null, null, null, null]

  /** The child slots, the mask and the parent pointer of one node agree with the paths. */
  ghost predicate TiedAt(nodes: Nodes, p: Path, tie: Tie)
  {
    && |tie.child| == 8
    && (forall k: Corner :: tie.child[k] == if Kid(p, k) in nodes then nodes[Kid(p, k)] else null)
    && (forall k: Corner :: HasBit(tie.mask, k) <==> Kid(p, k) in nodes)
    && tie.parent == (if p.Kid? && p.up in nodes then nodes[p.up] else null)
  }

  /** One node of the tree: its region is the octant of the region above it that its path names. */
  ghost predicate NodeTied(nodes: Nodes, p: Path, tie: Tie)
    requires Top in nodes && p in nodes
  {
    nodes[p].path == p && tie.region == Region(World(nodes), p) && TiedAt(nodes, p, tie)
  }

  /** The nodes form one tree. */
  ghost predicate Tied(nodes: Nodes, ties: map<Path, Tie>)
  {
    && Top in nodes
    && ties.Keys == nodes.Keys
    && World(nodes).Proper()
    && Grown(World(nodes), nodes.Keys)
    && forall p <- nodes.Keys :: NodeTied(nodes, p, ties[p])
  }

  /** The heap invariant. */
  ghost predicate Linked(nodes: Nodes)
    reads nodes.Values`child, nodes.Values`active, nodes.Values`parent
  {
    Tied(nodes, Ties(nodes))
  }

  /** The links after child `k` of the node at `p` is assigned anew. */
  ghost function Attached(nodes: Nodes, ties: map<Path, Tie>, p: Path, k: Corner, node: OctTree,
                          mask: bv8): map<Path, Tie>
    requires p in nodes && p in ties && |ties[p].child| == 8
  {
    var tie := ties[p].(child := ties[p].child[k := node], mask := mask);
    Outside(ties[p := tie], Kid(p, k))[Kid(p, k) := Tie(Octant(ties[p].region, k), NO_CHILDREN, 0, nodes[p])]
  }

  lemma AttachedAt(nodes: Nodes, ties: map<Path, Tie>, p: Path, k: Corner, node: OctTree, mask: bv8, q: Path)
    requires p in nodes && p in ties && ties.Keys == nodes.Keys
    requires TiedAt(nodes, p, ties[p])
    requires q in Outside(nodes, Kid(p, k)) && TiedAt(nodes, q, ties[q])
    requires forall i: Corner :: HasBit(mask, i) <==> HasBit(ties[p].mask, i) || i == k
    ensures TiedAt(Outside(nodes, Kid(p, k))[Kid(p, k) := node], q, Attached(nodes, ties, p, k, node, mask)[q])
  {
    hide HasBit, Octant;
    var kid := Kid(p, k);
    NotBelowKid(p, k);
    forall i: Corner ensures Below(kid, Kid(q, i)) <==> Kid(q, i) == kid {}
    if q.Kid? { assert !Below(kid, q.up); }
  }

  lemma AttachedGrown(world: BoundingBox, shape: set<Path>, p: Path, k: Corner)
    requires Grown(world, shape) && p in shape && !Small(Region(world, p))
    ensures Grown(world, NotUnder(shape, Kid(p, k)) + {Kid(p, k)})
  {
    hide Small, Region;
    NotBelowKid(p, k);
  }

  lemma AttachedNode(nodes: Nodes, ties: map<Path, Tie>, p: Path, k: Corner, node: OctTree, mask: bv8, q: Path)
    requires Tied(nodes, ties) && p in nodes && TiedAt(nodes, p, ties[p]) && node.path == Kid(p, k)
    requires forall i: Corner :: HasBit(mask, i) <==> HasBit(ties[p].mask, i) || i == k
    requires q in Outside(nodes, Kid(p, k)) || q == Kid(p, k)
    ensures var after := Outside(nodes, Kid(p, k))[Kid(p, k) := node];
      Top in after && NodeTied(after, q, Attached(nodes, ties, p, k, node, mask)[q])
  {
    hide HasBit, Octant, Region, Small, Grown, TiedAt, Below;
    NotBelowKid(p, k);
    assert NodeTied(nodes, p, ties[p]);
    if q == Kid(p, k) {
      AttachedNew(nodes, p, k, node, ties[p].region);
      KidRegion(World(nodes), p, k);
    } else {
      assert NodeTied(nodes, q, ties[q]);
      AttachedAt(nodes, ties, p, k, node, mask, q);
    }
  }

  lemma AttachedKeys(nodes: Nodes, ties: map<Path, Tie>, p: Path, k: Corner, node: OctTree, mask: bv8)
    requires p in nodes && p in ties && |ties[p].child| == 8
    ensures Attached(nodes, ties, p, k, node, mask).Keys == NotUnder(ties.Keys, Kid(p, k)) + {Kid(p, k)}
  {
    NotBelowKid(p, k);
    OutsideKeys(ties, Kid(p, k));
  }

  lemma AttachTied(nodes: Nodes, ties: map<Path, Tie>, p: Path, k: Corner, node: OctTree, mask: bv8)
    requires Tied(nodes, ties) && p in nodes && !Small(ties[p].region) && node.path == Kid(p, k)
    requires forall i: Corner :: HasBit(mask, i) <==> HasBit(ties[p].mask, i) || i == k
    ensures TiedAt(nodes, p, ties[p])
    ensures Tied(Outside(nodes, Kid(p, k))[Kid(p, k) := node], Attached(nodes, ties, p, k, node, mask))
  {
    assert NodeTied(nodes, p, ties[p]) && TiedAt(nodes, p, ties[p]) && |ties[p].child| == 8;
    hide HasBit, Small, TiedAt, Grown, Octant, Region, Attached, NodeTied;
    var kid := Kid(p, k);
    OutsideKeys(nodes, kid);
    AttachedKeys(nodes, ties, p, k, node, mask);
    NotBelowKid(p, k);
    hide Outside, Below;
    var after := Outside(nodes, kid)[kid := node];
    AttachedGrown(World(nodes), nodes.Keys, p, k);
    assert after.Keys == NotUnder(nodes.Keys, kid) + {kid};
    assert World(after) == World(nodes);
    forall q <- after.Keys
      ensures NodeTied(after, q, Attached(nodes, ties, p, k, node, mask)[q])
    {
      AttachedNode(nodes, ties, p, k, node, mask, q);
    }
  }

  lemma KidRegion(world: BoundingBox, p: Path, k: Corner)
    ensures Region(world, Kid(p, k)) == Octant(Region(world, p), k)
  {}

  lemma AttachedNew(nodes: Nodes, p: Path, k: Corner, node: OctTree, r: BoundingBox)
    requires p in nodes
    ensures TiedAt(Outside(nodes, Kid(p, k))[Kid(p, k) := node], Kid(p, k),
                   Tie(Octant(r, k), NO_CHILDREN, 0, nodes[p]))
  {
    hide HasBit;
    var kid := Kid(p, k);
    NotBelowKid(p, k);
    EmptyMask(0);
    forall i: Corner ensures Kid(kid, i) !in Outside(nodes, kid)[kid := node] {
      assert Below(kid, Kid(kid, i));
    }
  }

  lemma LinkedPaths(nodes: Nodes)
    requires Linked(nodes)
    ensures Top in nodes && forall p <- nodes.Keys :: nodes[p].path == p
  {
    hide TiedAt, Region;
    forall p <- nodes.Keys ensures nodes[p].path == p {
      assert NodeTied(nodes, p, Ties(nodes)[p]);
    }
  }

  ghost function TieOf(n: OctTree): Tie
    reads n`child, n`active, n`parent
  {
    Tie(n.region, n.child, n.active, n.parent)
  }

  lemma TiesReplaced(nodes: Nodes, kid: Path, node: OctTree)
    ensures Ties(Outside(nodes, kid)[kid := node]) == Outside(Ties(nodes), kid)[kid := TieOf(node)]
  {}

  /** What the heap invariant says of one node. */
  lemma LinkedNode(nodes: Nodes, p: Path)
    requires Linked(nodes) && p in nodes
    ensures Top in nodes && World(nodes).Proper() && Grown(World(nodes), nodes.Keys)
    ensures nodes[p].region == Region(World(nodes), p)
    ensures |nodes[p].child| == 8
    ensures forall k: Corner :: nodes[p].child[k] == if Kid(p, k) in nodes then nodes[Kid(p, k)] else null
    ensures forall k: Corner :: HasBit(nodes[p].active, k) <==> Kid(p, k) in nodes
    ensures p.Kid? ==> p.up in nodes && nodes[p].parent == nodes[p.up] && !Small(nodes[p.up].region)
    ensures p.Top? ==> nodes[p].parent == null
    ensures (exists k: Corner :: Kid(p, k) in nodes) ==> !Small(nodes[p].region)
  {
    hide HasBit, Region, Small;
    assert NodeTied(nodes, p, Ties(nodes)[p]);
    if p.Kid? { assert NodeTied(nodes, p.up, Ties(nodes)[p.up]); }
  }

  // ----- dropping a child

  ghost function Detached(ties: map<Path, Tie>, p: Path, k: Corner, mask: bv8): map<Path, Tie>
    requires p in ties && |ties[p].child| == 8
  {
    ties[p := ties[p].(child := ties[p].child[k := null], mask := mask)] - {Kid(p, k)}
  }

  lemma DetachedNode(nodes: Nodes, ties: map<Path, Tie>, p: Path, k: Corner, mask: bv8, q: Path)
    requires Top in nodes && p in nodes && nodes.Keys == ties.Keys && TiedAt(nodes, p, ties[p])
    requires forall i: Corner :: HasBit(mask, i) <==> HasBit(ties[p].mask, i) && i != k
    requires forall i: Corner :: Kid(Kid(p, k), i) !in nodes
    requires q in nodes && q != Kid(p, k) && NodeTied(nodes, q, ties[q])
    ensures Top in nodes - {Kid(p, k)} && q in Detached(ties, p, k, mask)
    ensures NodeTied(nodes - {Kid(p, k)}, q, Detached(ties, p, k, mask)[q])
  {
    hide HasBit, Octant, Region, Below;
    assert q.Kid? ==> q == Kid(q.up, q.corner);
    if q == p {
      forall i: Corner ensures Kid(q, i) == Kid(p, k) <==> i == k {}
    } else {
      forall i: Corner ensures Kid(q, i) != Kid(p, k) {}
    }
  }

  lemma DetachTied(nodes: Nodes, ties: map<Path, Tie>, p: Path, k: Corner, mask: bv8)
    requires Tied(nodes, ties) && p in nodes && Kid(p, k) in nodes
    requires forall i: Corner :: HasBit(mask, i) <==> HasBit(ties[p].mask, i) && i != k
    requires forall i: Corner :: Kid(Kid(p, k), i) !in nodes
    ensures TiedAt(nodes, p, ties[p])
    ensures Tied(nodes - {Kid(p, k)}, Detached(ties, p, k, mask))
  {
    assert NodeTied(nodes, p, ties[p]) && TiedAt(nodes, p, ties[p]) && |ties[p].child| == 8;
    hide HasBit, Small, TiedAt, Octant, Region, NodeTied, Below, Detached;
    NotBelowKid(p, k);
    ExpiredShape(World(nodes), nodes.Keys, Kid(p, k));
    DetachedKeys(ties, p, k, mask);
    hide Grown;
    var after, ties' := nodes - {Kid(p, k)}, Detached(ties, p, k, mask);
    assert Top != Kid(p, k) && World(after) == World(nodes);
    assert after.Keys == nodes.Keys - {Kid(p, k)};
    forall q <- after.Keys ensures NodeTied(after, q, ties'[q]) {
      DetachedNode(nodes, ties, p, k, mask, q);
    }
  }

  lemma DetachedKeys(ties: map<Path, Tie>, p: Path, k: Corner, mask: bv8)
    requires p in ties && |ties[p].child| == 8
    ensures Detached(ties, p, k, mask).Keys == ties.Keys - {Kid(p, k)}
  {}

  lemma DetachPlan(nodes: Nodes, p: Path, k: Corner)
    requires Linked(nodes) && p in nodes && Kid(p, k) in nodes
    requires forall i: Corner :: Kid(Kid(p, k), i) !in nodes
    ensures |nodes[p].child| == 8 && Kid(p, k) != p
    ensures forall q <- nodes.Keys :: nodes[q].path == q
    ensures Tied(nodes - {Kid(p, k)}, Detached(Ties(nodes), p, k, nodes[p].active ^ Bit(k)))
  {
    hide Region, Small, HasBit, Bit, Octant, Below, Linked, Tied, TiedAt, NodeTied, Detached;
    assert |nodes[p].child| == 8 && HasBit(nodes[p].active, k) by { LinkedNode(nodes, p); }
    ClearBit(nodes[p].active, k);
    LinkedPaths(nodes);
    NotBelowKid(p, k);
    DetachTiedNow(nodes, p, k, nodes[p].active ^ Bit(k));
  }

  lemma DetachTiedNow(nodes: Nodes, p: Path, k: Corner, mask: bv8)
    requires Linked(nodes) && p in nodes && Kid(p, k) in nodes && |nodes[p].child| == 8
    requires forall i: Corner :: HasBit(mask, i) <==> HasBit(nodes[p].active, i) && i != k
    requires forall i: Corner :: Kid(Kid(p, k), i) !in nodes
    ensures Tied(nodes - {Kid(p, k)}, Detached(Ties(nodes), p, k, mask))
  {
    hide Region, Small, HasBit, Octant, Tied, Detached;
    var ties := Ties(nodes);
    assert p in ties && ties[p].mask == nodes[p].active;
    DetachTied(nodes, ties, p, k, mask);
  }

  /** The heap before child `k` is assigned already determines the links after it. */
  lemma AttachPlan(nodes: Nodes, p: Path, k: Corner, node: OctTree)
    requires Linked(nodes) && p in nodes && !Small(nodes[p].region) && node.path == Kid(p, k)
    ensures |nodes[p].child| == 8 && Kid(p, k) != p
    ensures forall q <- nodes.Keys :: nodes[q].path == q
    ensures Tied(Outside(nodes, Kid(p, k))[Kid(p, k) := node],
                 Attached(nodes, Ties(nodes), p, k, node, nodes[p].active | Bit(k)))
  {
    hide Small, HasBit, Bit, Below, Tied, Outside, Attached, Linked, Region, Octant;
    assert |nodes[p].child| == 8 by { LinkedNode(nodes, p); }
    LinkedPaths(nodes);
    NotBelowKid(p, k);
    var mask := SetBit(nodes[p].active, k);
    AttachTiedNow(nodes, p, k, node, mask);
  }

  lemma AttachTiedNow(nodes: Nodes, p: Path, k: Corner, node: OctTree, mask: bv8)
    requires Linked(nodes) && p in nodes && !Small(nodes[p].region) && node.path == Kid(p, k) && |nodes[p].child| == 8
    requires forall i: Corner :: HasBit(mask, i) <==> HasBit(nodes[p].active, i) || i == k
    ensures Tied(Outside(nodes, Kid(p, k))[Kid(p, k) := node], Attached(nodes, Ties(nodes), p, k, node, mask))
  {
    hide Small, HasBit, Tied, Outside, Attached;
    var ties := Ties(nodes);
    assert p in ties && ties[p].mask == nodes[p].active && ties[p].region == nodes[p].region;
    AttachTied(nodes, ties, p, k, node, mask);
  }

  lemma LinkedShape(nodes: Nodes)
    requires Linked(nodes)
    ensures Top in nodes && World(nodes).Proper()
    ensures Stored(nodes).Keys == nodes.Keys && Grown(World(nodes), Stored(nodes).Keys)
    ensures Ages(nodes).Keys == nodes.Keys
  {
    hide Grown, NodeTied;
    assert Stored(nodes).Keys == nodes.Keys;
  }

  lemma VacantNode(nodes: Nodes, p: Path)
    requires Linked(nodes) && p in nodes
    ensures nodes[p].objects == [] && nodes[p].active == 0 <==> Vacant(Stored(nodes), p)
  {
    hide Region, Small, HasBit, Tied;
    LinkedNode(nodes, p);
    EmptyMask(nodes[p].active);
  }

  lemma NothingOutside(nodes: Nodes, kid: Path)
    requires Linked(nodes) && kid !in nodes
    ensures Outside(nodes, kid) == nodes
  {
    hide Region, Small, HasBit, NodeTied;
    forall q <- nodes.Keys ensures !Below(kid, q) {
      if Below(kid, q) { GrownAbove(World(nodes), nodes.Keys, kid, q); }
    }
  }

  /** The boxes are those of the objects now. */
  ghost predicate Current(boxes: Boxes)
    reads (set o | o in boxes)`box
  {
    forall o <- boxes.Keys :: o.box == boxes[o]
  }

  /** The state of a tree, as values. */
  ghost function Now(nodes: Nodes): State
    requires Top in nodes
    reads nodes.Values
  {
    State(World(nodes), Stored(nodes), Ages(nodes))
  }

  /** The objects as they are. */
  ghost function Seeing(boxes: Boxes): View
    reads boxes.Keys`dirty, boxes.Keys`marked
  {
    View(boxes, set o | o in boxes && o.dirty, set o | o in boxes && o.marked)
  }

  /** A reachable tree during an update. */
  ghost predicate Good(nodes: Nodes, boxes: Boxes, exempt: set<GameObject>)
    reads nodes.Values, (set o | o in boxes)`box
  {
    Linked(nodes) && Top in nodes && Current(boxes) && Fine(Now(nodes), boxes, exempt)
  }

  /** The top is the same, and so are the nodes outside the subtree at `p`. */
  ghost predicate Follows(nodes: Nodes, after: Nodes, p: Path)
  {
    && Top in nodes && Top in after && World(after) == World(nodes)
    && p in nodes && p in after && after[p] == nodes[p]
    && SameOutside(nodes, after, p)
  }

  lemma GoodNode(nodes: Nodes, boxes: Boxes, exempt: set<GameObject>, p: Path)
    requires Good(nodes, boxes, exempt) && p in nodes
    ensures nodes.Keys == Now(nodes).m.Keys == Now(nodes).ages.Keys
    ensures SoundAt(Now(nodes).m, Now(nodes).ages, p)
    ensures Now(nodes).ages[p] == AgeOf(nodes[p]) && Now(nodes).m[p] == nodes[p].objects
    ensures forall o <- nodes[p].objects :: o in boxes
  {
    hide Fine, Linked, SoundAt;
    LinkedShape(nodes);
    FineNode(Now(nodes), boxes, exempt, p);
  }

  /** Outside the subtree at `p` the nodes are the same objects. */
  ghost predicate SameOutside(nodes: Nodes, after: Nodes, p: Path)
  {
    forall q <- nodes.Keys :: !Below(p, q) ==> q in after && after[q] == nodes[q]
  }

  /** A node in the place of the subtree at `kid`. */
  lemma ReplacedChild(nodes: Nodes, kid: Path, node: OctTree)
    requires Top in nodes && !Below(kid, Top)
    ensures var after := Outside(nodes, kid)[kid := node];
      && Top in after && World(after) == World(nodes) && SameOutside(nodes, after, kid)
      && (forall q <- nodes.Keys | !Below(kid, q) :: q in after && after[q] == nodes[q])
      && (forall q <- after.Keys :: after[q] == node || (q in nodes && after[q] == nodes[q]))
      && Stored(after) == Outside(Stored(nodes), kid)[kid := node.objects]
  {
    assert kid != Top;
    hide Below;
  }

  lemma SameOutsideSelf(nodes: Nodes, p: Path)
    ensures SameOutside(nodes, nodes, p)
  {}

  lemma SameOutsideTrans(a: Nodes, b: Nodes, c: Nodes, p: Path)
    requires SameOutside(a, b, p) && SameOutside(b, c, p)
    ensures SameOutside(a, c, p)
  {}

  lemma SameOutsideKid(nodes: Nodes, after: Nodes, p: Path, k: Corner)
    requires SameOutside(nodes, after, Kid(p, k))
    ensures SameOutside(nodes, after, p)
    ensures p in nodes ==> p in after && after[p] == nodes[p]
  {
    NotBelowKid(p, k);
    forall q <- nodes.Keys | !Below(p, q) ensures q in after && after[q] == nodes[q] {
      if Below(Kid(p, k), q) { KidsApart(p, k, q); }
    }
  }

  class OctTree {
    const region: BoundingBox
    ghost const path: Path
    var objects: seq<GameObject>
    var queue: seq<GameObject>
    var child: seq<OctTree?>
    var parent: OctTree?
    var active: bv8
    var maxLifespan: int
    var lifespan: int
    var built: bool
    var ready: bool

    constructor (region: BoundingBox, ghost path: Path)
      ensures this.region == region && this.path == path && Pristine() && objects == [] && parent == null
    {
      this.region, this.path := region, path;
      objects, queue, child, parent := [], [], NO_CHILDREN, null;
      active, maxLifespan, lifespan, built, ready := 0, 8, -1, false, false;
    }

    /** No children, nothing queued, never updated. */
    ghost predicate Pristine()
      reads this`queue, this`child, this`active, this`maxLifespan, this`lifespan, this`built, this`ready
    {
      && queue == [] && child == NO_CHILDREN
      && active == 0 && maxLifespan == 8 && lifespan == -1 && !built && !ready
    }

    /** `CreateNode`: a child of this node that holds the given objects. */
    method CreateNode(region: BoundingBox, objects: seq<GameObject>, ghost path: Path) returns (node: OctTree)
      ensures fresh(node) && node.Pristine()
      ensures node.region == region && node.path == path && node.objects == objects && node.parent == this
    {
      node := new OctTree(region, path);
      node.parent := this;
      node.objects := objects;
    }

    /** Assigns a child slot and sets its bit, dropping whatever subtree was there. */
    method Attach(k: nat, node: OctTree, ghost nodes: Nodes, ghost p: Path) returns (ghost after: Nodes)
      requires k < 8
      requires Linked(nodes) && p in nodes && nodes[p] == this && !Small(region)
      requires node.path == Kid(p, k) && node.Pristine() && node.parent == this && node.region == Octant(region, k)
      modifies this`child, this`active
      ensures after == Outside(nodes, Kid(p, k))[Kid(p, k) := node]
      ensures Linked(after)
    {
      hide Region, Small, Bit, Octant, Below, Tied, Grown;
      AttachPlan(nodes, p, k, node);
      after := Outside(nodes, Kid(p, k))[Kid(p, k) := node];
      ghost var ties := Ties(nodes);
      child := child[k := node];
      active := active | Bit(k);
      assert Ties(nodes) == ties[p := TieOf(this)];
      TiesReplaced(nodes, Kid(p, k), node);
    }
  
    method Push(o: GameObject, ghost nodes: Nodes, ghost p: Path)
      requires Linked(nodes) && p in nodes && nodes[p] == this
      modifies this`objects
      ensures Stored(nodes) == Put(old(Stored(nodes)), p, o)
    {
      hide Tied;
      LinkedPaths(nodes);
      objects := objects + [o];
    }

    /** The first corner whose region contains the box, 8 when there is none. */
    method FirstCorner(box: BoundingBox, ghost nodes: Nodes, ghost p: Path) returns (corner: nat)
      requires Linked(nodes) && p in nodes && nodes[p] == this
      ensures corner == FirstFit(region, box)
    {
      hide Region, Small, HasBit, Tied, Octant, Grown;
      LinkedNode(nodes, p);
      var octants := Octants(region);
      corner := 0;
      while corner < 8
        invariant corner <= 8
        invariant forall i: Corner :: i < corner ==> !Octant(region, i).Contains(box)
      {
        if child[corner] != null {
          LinkedNode(nodes, Kid(p, corner));
          KidRegion(World(nodes), p, corner);
        }
        var childRegion := if child[corner] != null then child[corner].region else octants[corner];
        if childRegion.Contains(box) {
          break;
        }
        corner := corner + 1;
      }
    }

    /** `Insert`: the object is appended at the place `Home` names, and nothing else changes; without such a place
        the tree stays as it is. */
    method Insert(o: GameObject, ghost nodes: Nodes, ghost p: Path) returns (ok: bool, ghost after: Nodes)
      requires Linked(nodes) && p in nodes && nodes[p] == this
      modifies nodes.Values`objects, nodes.Values`child, nodes.Values`active
      ensures Linked(after)
      ensures forall q <- nodes.Keys :: q in after && after[q] == nodes[q]
      ensures forall q <- after.Keys - nodes.Keys :: fresh(after[q]) && after[q].Pristine()
      ensures var home := Home(World(nodes), old(Stored(nodes)), p, o.box);
        && ok == home.Some?
        && Stored(after) == if ok then Put(old(Stored(nodes)), home.value, o) else old(Stored(nodes))
      decreases if region.Contains(o.box) then 0 else 1, if region.Contains(o.box) then Weight(region) else Depth(p)
    {
      hide Region, Small, HasBit, Bit, Tied, Home, FirstFit, Octant, Vacant, Grown, Linked, Put;
      ghost var m := Stored(nodes);
      LinkedNode(nodes, p);
      VacantNode(nodes, p);
      assert m.Keys == nodes.Keys;
      if objects == [] && active == 0 {
        HomeHere(World(nodes), m, p, o.box);
        Push(o, nodes, p);
        return true, nodes;
      }
      if Small(region) {
        HomeHere(World(nodes), m, p, o.box);
        Push(o, nodes, p);
        return true, nodes;
      }
      if !region.Contains(o.box) {
        if parent != null {
          HomeUp(World(nodes), m, p, o.box);
          ok, after := parent.Insert(o, nodes, p.up);
        } else {
          HomeTop(World(nodes), m, p, o.box);
          ok, after := false, nodes;
        }
        return;
      }
      HomeDown(World(nodes), m, p, o.box);
      var corner := FirstCorner(o.box, nodes, p);
      if corner == 8 {
        Push(o, nodes, p);
        return true, nodes;
      }
      ok, after := InsertChild(corner, o, nodes, p);
    }

    /** The object goes to the child at the first corner that contains it, which is created when it is missing. */
    method InsertChild(corner: nat, o: GameObject, ghost nodes: Nodes, ghost p: Path)
      returns (ok: bool, ghost after: Nodes)
      requires Linked(nodes) && p in nodes && nodes[p] == this
      requires corner < 8 && corner == FirstFit(region, o.box)
      requires !Small(region) && region.Contains(o.box)
      modifies nodes.Values`objects, nodes.Values`child, nodes.Values`active
      ensures ok && Linked(after)
      ensures forall q <- nodes.Keys :: q in after && after[q] == nodes[q]
      ensures forall q <- after.Keys - nodes.Keys :: fresh(after[q]) && after[q].Pristine()
      ensures var kid := Kid(p, corner);
        var home := if kid in nodes then Home(World(nodes), old(Stored(nodes)), kid, o.box) else Some(kid);
        home.Some? && Stored(after) == Put(old(Stored(nodes)), home.value, o)
      decreases 0, Weight(region), 0
    {
      hide Region, Small, HasBit, Bit, Tied, Home, FirstFit, Vacant, Grown;
      ghost var m, kid := Stored(nodes), Kid(p, corner);
      LinkedNode(nodes, p);
      KidRegion(World(nodes), p, corner);
      OctantLighter(region, corner);
      var childNode := child[corner];
      if childNode != null {
        // the source tries the remaining corners when the child refuses, which a child whose region contains
        // the box never does
        LinkedNode(nodes, kid);
        HomeFits(World(nodes), m, kid, o.box);
        ok, after := childNode.Insert(o, nodes, kid);
      } else {
        after := InsertNew(corner, o, nodes, p);
        ok := true;
      }
    }

    /** A new child that holds the object alone. */
    method InsertNew(corner: nat, o: GameObject, ghost nodes: Nodes, ghost p: Path) returns (ghost after: Nodes)
      requires corner < 8 && Linked(nodes) && p in nodes && nodes[p] == this && Kid(p, corner) !in nodes
        && !Small(region)
      modifies this`child, this`active
      ensures Linked(after)
      ensures forall q <- nodes.Keys :: q in after && after[q] == nodes[q]
      ensures forall q <- after.Keys - nodes.Keys :: fresh(after[q]) && after[q].Pristine()
      ensures Stored(after) == Put(old(Stored(nodes)), Kid(p, corner), o)
    {
      hide Region, Small, Bit, Tied, Octant;
      ghost var kid := Kid(p, corner);
      NothingOutside(nodes, kid);
      hide Linked, Outside, Stored, Put;
      var node := CreateNode(Octants(region)[corner], [o], kid);
      after := Attach(corner, node, nodes, p);
      assert after == nodes[kid := node];
      StoredMore(nodes, kid, node);
      PutNew(Stored(nodes), kid, o);
    }

    /** Never updated since it was created. */
    ghost predicate Idle()
      reads this`queue, this`maxLifespan, this`lifespan, this`built, this`ready
    {
      queue == [] && maxLifespan == 8 && lifespan == -1 && !built && !ready
    }

    /** The octant that contains the object's box, 8 for a flat box or when there is none. */
    method Choose(octants: seq<BoundingBox>, o: GameObject, ghost boxes: Boxes) returns (corner: nat)
      requires octants == Octants(region) && Current(boxes) && o in boxes
      ensures corner == Slot(boxes, region, o)
    {
      hide Octant;
      corner := 8;
      if !o.box.IsPoint() {
        corner := 0;
        while corner < 8 && !octants[corner].Contains(o.box)
          invariant corner <= 8
          invariant forall i: Corner :: i < corner ==> !Octant(region, i).Contains(o.box)
        {
          corner := corner + 1;
        }
      }
    }

    /** The first pass of `BuildTree`: which object goes to which octant, and the positions that leave this node. */
    method SortOut(ghost boxes: Boxes) returns (lists: seq<seq<GameObject>>, removed: seq<nat>)
      requires Current(boxes) && forall o <- objects :: o in boxes
      ensures |lists| == 8 && forall k: Corner :: lists[k] == Fitting(boxes, region, objects, k)
      ensures Rejects(removed, Slots(boxes, region, objects), 8)
    {
      hide Octant, Slot, Slots, Fitting, FirstFit, Sorted, Rejects;
      var octants := Octants(region);
      ghost var slots := Slots(boxes, region, objects);
      lists, removed := [[], [], [], [], [], [], [], []], [];
      SortedStart(objects, slots);
      var index := 0;
      while index < |objects|
        invariant 0 <= index <= |objects|
        invariant Sorted(lists, objects, slots, index) && Rejects(removed, slots[..index], 8)
      {
        var corner := Choose(octants, objects[index], boxes);
        SortedStep(lists, objects, slots, index);
        RejectsPush(removed, slots, index, 8);
        if corner < 8 {
          lists := lists[corner := lists[corner] + [objects[index]]];
          removed := removed + [index];
        }
        index := index + 1;
      }
      SortedEnd(lists, objects, boxes, region);
      assert slots[..index] == slots;
    }

    method Vacate(removed: seq<nat>, ghost boxes: Boxes, ghost nodes: Nodes, ghost p: Path)
      requires Linked(nodes) && p in nodes && nodes[p] == this
      requires Rejects(removed, Slots(boxes, region, objects), 8)
      modifies this`objects
      ensures Stored(nodes) == old(Stored(nodes))[p := old(Fitting(boxes, region, objects, 8))]
    {
      hide Tied, Fitting, Slots;
      LinkedPaths(nodes);
      FittingIsPick(boxes, region, objects, 8);
      objects := EraseAt(objects, removed, Slots(boxes, region, objects), 8);
    }

    /** `BuildTree`: the whole new state is `Rebuilt`. */
    method BuildTree(ghost boxes: Boxes, ghost nodes: Nodes, ghost p: Path) returns (ghost after: Nodes)
      requires Current(boxes) && forall o <- objects :: o in boxes
      requires Linked(nodes) && p in nodes && nodes[p] == this
      modifies this`objects, this`child, this`active
      ensures Linked(after) && Top in after && Top in nodes && World(after) == World(nodes)
      ensures Stored(after) == Rebuilt(boxes, World(nodes), old(Stored(nodes)), p)
      ensures p in after && after[p] == this && SameOutside(nodes, after, p)
      ensures forall q <- after.Keys :: (q in nodes && after[q] == nodes[q]) || (fresh(after[q]) && after[q].Idle())
      decreases Weight(region)
    {
      hide Region, Small, Fitting, Rebuilt, Tied, Built, Partly;
      LinkedNode(nodes, p);
      ghost var m, world := Stored(nodes), World(nodes);
      if |objects| <= 1 {
        if |objects| == 1 && region.Contains(objects[0].box) {
          RebuiltSettled(boxes, world, m, p);
          return nodes;
        }
      }
      if Small(region) {
        RebuiltSettled(boxes, world, m, p);
        return nodes;
      }
      var lists, removed := SortOut(boxes);
      Vacate(removed, boxes, nodes, p);
      after := GrowChildren(lists, m, boxes, nodes, p);
    }

    /** The last pass of `BuildTree`: a new child, built in turn, at every corner that got objects. */
    method GrowChildren(lists: seq<seq<GameObject>>, ghost m: map<Path, seq<GameObject>>, ghost boxes: Boxes,
                        ghost nodes: Nodes, ghost p: Path)
      returns (ghost after: Nodes)
      requires Current(boxes) && p in m && forall o <- m[p] :: o in boxes
      requires Linked(nodes) && p in nodes && nodes[p] == this && p in m && !Settled(boxes, region, m[p])
      requires Stored(nodes) == m[p := Fitting(boxes, region, m[p], 8)]
      requires |lists| == 8 && forall k: Corner :: lists[k] == Fitting(boxes, region, m[p], k)
      modifies this`child, this`active
      ensures Linked(after) && Top in after && Top in nodes && World(after) == World(nodes)
      ensures Stored(after) == Rebuilt(boxes, World(nodes), m, p)
      ensures p in after && after[p] == this && SameOutside(nodes, after, p)
      ensures forall q <- after.Keys :: (q in nodes && after[q] == nodes[q]) || (fresh(after[q]) && after[q].Idle())
      decreases Weight(region), 0, 3
    {
      assert !Small(region);
      hide Region, Small, Fitting, Rebuilt, Tied, Built, Partly, Octant, SameOutside, Stored, Settled;
      LinkedNode(nodes, p);
      hide Linked;
      PartlyStart(boxes, World(nodes), m, p);
      PartlyEnd(boxes, World(nodes), m, p);
      after := GrowCorners(lists, m, boxes, nodes, p);
    }

    /** Corner by corner. */
    method GrowCorners(lists: seq<seq<GameObject>>, ghost m: map<Path, seq<GameObject>>, ghost boxes: Boxes,
                       ghost nodes: Nodes, ghost p: Path)
      returns (ghost after: Nodes)
      requires Current(boxes) && p in m && forall o <- m[p] :: o in boxes
      requires Linked(nodes) && Top in nodes && p in nodes && nodes[p] == this
      requires !Settled(boxes, region, m[p]) && region == Region(World(nodes), p) && !Small(region)
      requires |lists| == 8 && forall k: Corner :: lists[k] == Fitting(boxes, region, m[p], k)
      requires Stored(nodes) == Partly(boxes, World(nodes), m, p, 0)
      modifies this`child, this`active
      ensures Linked(after) && Top in after && World(after) == World(nodes)
      ensures Stored(after) == Partly(boxes, World(nodes), m, p, 8)
      ensures p in after && after[p] == this && SameOutside(nodes, after, p)
      ensures forall q <- after.Keys :: (q in nodes && after[q] == nodes[q]) || (fresh(after[q]) && after[q].Idle())
      decreases Weight(region), 0, 2
    {
      hide Region, Small, Fitting, Tied, Partly, SameOutside, Stored, Settled, Linked, Idle;
      SameOutsideSelf(nodes, p);
      after := nodes;
      var corner := 0;
      while corner < 8
        invariant 0 <= corner <= 8
        invariant Linked(after) && Top in after && World(after) == World(nodes) && p in after && after[p] == this
        invariant Stored(after) == Partly(boxes, World(nodes), m, p, corner) && SameOutside(nodes, after, p)
        invariant forall q <- after.Keys :: (q in nodes && after[q] == nodes[q]) || (fresh(after[q]) && after[q].Idle())
      {
        ghost var before := after;
        after := GrowCorner(corner, lists[corner], m, boxes, after, p);
        SameOutsideTrans(nodes, before, after, p);
        corner := corner + 1;
      }
    }

    /** One corner of the last pass. */
    method GrowCorner(corner: nat, down: seq<GameObject>, ghost m: map<Path, seq<GameObject>>, ghost boxes: Boxes,
                      ghost nodes: Nodes, ghost p: Path)
      returns (ghost after: Nodes)
      requires Current(boxes) && p in m && forall o <- m[p] :: o in boxes
      requires Linked(nodes) && Top in nodes && p in nodes && nodes[p] == this && corner < 8
      requires !Settled(boxes, region, m[p]) && region == Region(World(nodes), p)
      requires down == Fitting(boxes, region, m[p], corner)
      requires Stored(nodes) == Partly(boxes, World(nodes), m, p, corner)
      modifies this`child, this`active
      ensures Linked(after) && Top in after && World(after) == World(nodes)
      ensures Stored(after) == Partly(boxes, World(nodes), m, p, corner + 1)
      ensures p in after && after[p] == this && SameOutside(nodes, after, p)
      ensures forall q <- after.Keys :: (q in nodes && after[q] == nodes[q]) || (fresh(after[q]) && after[q].Idle())
      decreases Weight(region), 0, 1
    {
      assert !Small(region);
      hide Region, Small, Fitting, Tied, Built, Partly, Octant, SameOutside, Stored, Settled, Linked;
      PartlyStep(boxes, World(nodes), m, p, corner);
      if down != [] {
        after := GrowChild(corner, down, boxes, nodes, p);
      } else {
        SameOutsideSelf(nodes, p);
        after := nodes;
      }
    }

    method GrowChild(corner: nat, down: seq<GameObject>, ghost boxes: Boxes, ghost nodes: Nodes, ghost p: Path)
      returns (ghost after: Nodes)
      requires Current(boxes) && forall o <- down :: o in boxes
      requires Linked(nodes) && p in nodes && nodes[p] == this && corner < 8 && !Small(region)
      modifies this`child, this`active
      ensures Linked(after) && Top in after && World(after) == World(nodes)
      ensures Stored(after) ==
        Outside(old(Stored(nodes)), Kid(p, corner)) + Built(boxes, World(nodes), Kid(p, corner), down)
      ensures p in after && after[p] == this && SameOutside(nodes, after, p)
      ensures forall q <- after.Keys :: (q in nodes && after[q] == nodes[q]) || (fresh(after[q]) && after[q].Idle())
      decreases Weight(region), 0, 0
    {
      hide Region, Small, Fitting, Rebuilt, Linked, Built, Octant, Outside, Weight, Stored;
      assert Top in nodes && Weight(Octant(region, corner)) < Weight(region) by {
        LinkedNode(nodes, p);
        OctantLighter(region, corner);
      }
      RebuiltNew(boxes, World(nodes), Stored(nodes), Kid(p, corner), down);
      var node, mid := NewChild(corner, down, nodes, p);
      after := node.BuildTree(boxes, mid, Kid(p, corner));
      SameOutsideKid(nodes, mid, p, corner);
      SameOutsideKid(mid, after, p, corner);
      hide Below;
    }

    method NewChild(corner: nat, down: seq<GameObject>, ghost nodes: Nodes, ghost p: Path)
      returns (node: OctTree, ghost after: Nodes)
      requires Linked(nodes) && p in nodes && nodes[p] == this && corner < 8 && !Small(region)
      modifies this`child, this`active
      ensures Linked(after) && Top in after && Top in nodes && World(after) == World(nodes)
      ensures fresh(node) && node.Idle() && node.objects == down && node.region == Octant(region, corner)
      ensures Kid(p, corner) in after && after[Kid(p, corner)] == node && p in after && after[p] == this
      ensures Stored(after) == Outside(old(Stored(nodes)), Kid(p, corner))[Kid(p, corner) := down]
      ensures SameOutside(nodes, after, Kid(p, corner))
      ensures forall q <- after.Keys :: after[q] == node || (q in nodes && after[q] == nodes[q])
    {
      hide Region, Small, Tied, Below, Grown, HasBit, Octant, Outside;
      LinkedNode(nodes, p);
      hide Linked, SameOutside, Stored;
      NotBelowKid(p, corner);
      node := CreateNode(Octants(region)[corner], down, Kid(p, corner));
      after := Attach(corner, node, nodes, p);
      ReplacedChild(nodes, Kid(p, corner), node);
    }
  
    // ----- queries

    /** The matching objects of this node alone, appended to `found`. */
    method CollectHere(found: seq<GameObject>, probe: Probe, types: seq<nat>) returns (objects': seq<GameObject>)
      ensures objects' == found + Scan(objects, probe, types)
    {
      objects' := found;
      var index := 0;
      while index < |objects|
        invariant 0 <= index <= |objects|
        invariant objects' == found + Scan(objects[..index], probe, types)
      {
        var o := objects[index];
        ScanPush(objects, index, probe, types);
        if Accepted(o, types) {
          if probe.Hits(o.box) {
            objects' := objects' + [o];
          }
        }
        index := index + 1;
      }
      assert objects[..index] == objects;
    }

    /** `GetObjectsInRegion` and `GetObjectsInRadius`, which differ in the probe alone. */
    method GetObjects(found: seq<GameObject>, probe: Probe, types: seq<nat>, ghost nodes: Nodes, ghost p: Path)
      returns (objects': seq<GameObject>)
      requires Linked(nodes) && p in nodes && nodes[p] == this
      ensures Top in nodes && multiset(objects') == multiset(found)
        + Total(Finds(World(nodes), Stored(nodes), Live(nodes), p, probe, types))
      ensures !built ==> objects' == found
      decreases Weight(region), 2
    {
      hide Region, Small, HasBit, Tied, Finds, FindsUpTo, Scan, Total, Grown, Octant, Linked;
      ghost var world, m, live := LinkedWorld(nodes, p), Stored(nodes), Live(nodes);
      FindsStart(world, m, live, p, probe, types);
      LinkedNode(nodes, p);
      assert m.Keys == nodes.Keys;
      if !built {
        TotalEmpty(Finds(world, m, live, p, probe, types));
        return found;
      }
      objects' := CollectHere(found, probe, types);
      TotalSingle(p, Scan(objects, probe, types));
      if active != 0 {
        var index := 0;
        while index < 8
          invariant 0 <= index <= 8
          invariant multiset(objects') == multiset(found) + Total(FindsUpTo(world, m, live, p, probe, types, index))
        {
          objects' := GetObjectsAt(index, objects', probe, types, multiset(found), nodes, p);
          index := index + 1;
        }
      } else {
        EmptyMask(active);
        FindsLeaf(world, m, live, p, probe, types, 8);
      }
    }

    /** One child slot of a query. */
    method GetObjectsAt(index: nat, found: seq<GameObject>, probe: Probe, types: seq<nat>,
                        ghost base: multiset<GameObject>, ghost nodes: Nodes, ghost p: Path)
      returns (objects': seq<GameObject>)
      requires Linked(nodes) && p in nodes && nodes[p] == this && built && index < 8 && Top in nodes && |child| == 8
      requires multiset(found) ==
        base + Total(FindsUpTo(World(nodes), Stored(nodes), Live(nodes), p, probe, types, index))
      ensures multiset(objects') ==
        base + Total(FindsUpTo(World(nodes), Stored(nodes), Live(nodes), p, probe, types, index + 1))
      decreases Weight(region), 1
    {
      hide Region, Small, HasBit, Finds, FindsUpTo, Total, Octant, Linked, Grown;
      LinkedNode(nodes, p);
      LinkedShape(nodes);
      FindsStep(World(nodes), Stored(nodes), Live(nodes), p, probe, types, index);
      if child[index] != null && probe.Hits(child[index].region) {
        objects' := GetObjectsBelow(index, found, probe, types, nodes, p);
      } else {
        NotHit(nodes, p, index, probe);
        objects' := found;
      }
    }

    method GetObjectsBelow(index: nat, found: seq<GameObject>, probe: Probe, types: seq<nat>, ghost nodes: Nodes,
                           ghost p: Path)
      returns (objects': seq<GameObject>)
      requires Linked(nodes) && p in nodes && nodes[p] == this && index < 8
      requires |child| == 8 && child[index] != null && probe.Hits(child[index].region)
      ensures Top in nodes && Kid(p, index) in nodes && probe.Hits(Region(World(nodes), Kid(p, index)))
      ensures multiset(objects') == multiset(found)
        + Total(Finds(World(nodes), Stored(nodes), Live(nodes), Kid(p, index), probe, types))
      decreases Weight(region), 0
    {
      hide Region, Small, HasBit, Tied, Finds, Total, Grown, Octant;
      LinkedNode(nodes, p);
      LinkedNode(nodes, Kid(p, index));
      KidRegion(World(nodes), p, index);
      OctantLighter(region, index);
      objects' := child[index].GetObjects(found, probe, types, nodes, Kid(p, index));
    }

    // ----- triggers

    /** The active triggers among the objects of this node. */
    method TriggersHere() returns (triggers: seq<GameObject>)
      ensures forall t <- triggers :: t in objects && ActiveTrigger(t)
      ensures forall t <- objects | ActiveTrigger(t) :: t in triggers
    {
      triggers := [];
      var index := 0;
      while index < |objects|
        invariant 0 <= index <= |objects|
        invariant forall t <- triggers :: t in objects && ActiveTrigger(t)
        invariant forall t <- objects[..index] | ActiveTrigger(t) :: t in triggers
      {
        var o := objects[index];
        if o.isTrigger && !o.box.IsPoint() {
          triggers := triggers + [o];
        }
        index := index + 1;
      }
    }

    /** One trigger of the nodes above against the objects of this node; it collects this node's triggers again. */
    method MeetParent(collisions: seq<Meeting>, trigger: GameObject, found: seq<GameObject>,
                      ghost members: set<GameObject>)
      returns (pairs: seq<Meeting>, triggers: seq<GameObject>)
      requires ActiveTrigger(trigger) && trigger in members && forall o <- objects :: o in members
      requires forall t <- found :: t in objects && ActiveTrigger(t)
      ensures collisions <= pairs && Fair(pairs, |collisions|, members)
      ensures forall t <- triggers :: t in objects && ActiveTrigger(t)
      ensures forall t <- objects | ActiveTrigger(t) :: t in triggers
    {
      pairs, triggers := collisions, found;
      var index := 0;
      while index < |objects|
        invariant 0 <= index <= |objects|
        invariant collisions <= pairs && Fair(pairs, |collisions|, members)
        invariant forall t <- triggers :: t in objects && ActiveTrigger(t)
        invariant forall t <- objects[..index] | ActiveTrigger(t) :: t in triggers
      {
        var o := objects[index];
        if o.isTrigger {
          if !o.box.IsPoint() {
            triggers := triggers + [o];
          }
        } else if o != trigger.owner && trigger.box.Intersects(o.box) {
          pairs := pairs + [(trigger, o)];
        }
        index := index + 1;
      }
    }

    /** The triggers of this node: collected once, or once for every trigger of the nodes above. */
    method LocalTriggers(collisions: seq<Meeting>, parentTriggers: seq<GameObject>, ghost members: set<GameObject>)
      returns (pairs: seq<Meeting>, triggers: seq<GameObject>)
      requires forall o <- objects :: o in members
      requires forall t <- parentTriggers :: t in members && ActiveTrigger(t)
      ensures collisions <= pairs && Fair(pairs, |collisions|, members)
      ensures forall t <- triggers :: t in objects && ActiveTrigger(t)
      ensures forall t <- objects | ActiveTrigger(t) :: t in triggers
    {
      pairs, triggers := collisions, [];
      if parentTriggers == [] {
        triggers := TriggersHere();
      } else {
        var index := 0;
        while index < |parentTriggers|
          invariant 0 <= index <= |parentTriggers|
          invariant collisions <= pairs && Fair(pairs, |collisions|, members)
          invariant forall t <- triggers :: t in objects && ActiveTrigger(t)
          invariant index > 0 ==> forall t <- objects | ActiveTrigger(t) :: t in triggers
        {
          ghost var before := pairs;
          pairs, triggers := MeetParent(pairs, parentTriggers[index], triggers, members);
          assert forall i | 0 <= i < |before| :: pairs[i] == before[i];
          index := index + 1;
        }
      }
    }

    /** Climbs to the top node. */
    method FindTop(ghost nodes: Nodes, ghost p: Path) returns (top: OctTree)
      requires Linked(nodes) && p in nodes && nodes[p] == this
      ensures Top in nodes && top == nodes[Top]
    {
      hide Region, Small, HasBit, Tied, Grown;
      top := this;
      ghost var q := p;
      LinkedNode(nodes, q);
      while top.parent != null
        invariant q in nodes && nodes[q] == top && Top in nodes
        decreases Depth(q)
      {
        LinkedNode(nodes, q);
        top := top.parent;
        q := q.up;
      }
      LinkedNode(nodes, q);
    }

    /** Pairs a trigger with everything it sees from the top. */
    static method Ask(top: OctTree, trigger: GameObject, collisions: seq<Meeting>, ghost nodes: Nodes)
      returns (pairs: seq<Meeting>)
      requires Linked(nodes) && Top in nodes && nodes[Top] == top && ActiveTrigger(trigger)
      requires trigger in Members(Stored(nodes))
      ensures collisions <= pairs && Fair(pairs, |collisions|, Members(Stored(nodes)))
      ensures Answered(trigger, Seen(World(nodes), Stored(nodes), Live(nodes), trigger), pairs)
    {
      hide Region, Small, HasBit, Tied, Grown, Linked, Finds, Members;
      ghost var m, world, live := Stored(nodes), World(nodes), Live(nodes);
      var found := top.GetObjects([], InBox(trigger.box), [], nodes, Top);
      assert multiset(found) == Seen(world, m, live, trigger);
      pairs := collisions;
      var index := 0;
      while index < |found|
        invariant 0 <= index <= |found|
        invariant collisions <= pairs && Fair(pairs, |collisions|, Members(m))
        invariant forall o <- found[..index] :: !o.isTrigger && o != trigger.owner ==> (trigger, o) in pairs
      {
        var o := found[index];
        assert o in multiset(found);
        SeenStored(world, m, live, trigger, o);
        if !(o.isTrigger || o == trigger.owner) {
          pairs := pairs + [(trigger, o)];
        }
        index := index + 1;
      }
      assert found[..index] == found;
    }

    /** Asks for every trigger of the list. */
    method AskAll(triggers: seq<GameObject>, collisions: seq<Meeting>, ghost nodes: Nodes, ghost p: Path)
      returns (pairs: seq<Meeting>)
      requires Linked(nodes) && p in nodes && nodes[p] == this
      requires forall t <- triggers :: t in Members(Stored(nodes)) && ActiveTrigger(t)
      ensures Top in nodes && collisions <= pairs && Fair(pairs, |collisions|, Members(Stored(nodes)))
      ensures forall t <- triggers :: Answered(t, Seen(World(nodes), Stored(nodes), Live(nodes), t), pairs)
    {
      hide Linked, ActiveTrigger, Answered, Finds, Total;
      pairs := collisions;
      var top := FindTop(nodes, p);
      var index := 0;
      while index < |triggers|
        invariant 0 <= index <= |triggers|
        invariant collisions <= pairs && Fair(pairs, |collisions|, Members(Stored(nodes)))
        invariant forall t <- triggers[..index] :: Answered(t, Seen(World(nodes), Stored(nodes), Live(nodes), t), pairs)
      {
        ghost var before := pairs;
        pairs := Ask(top, triggers[index], pairs, nodes);
        assert forall i | 0 <= i < |before| :: pairs[i] == before[i];
        forall t <- triggers[..index] ensures Answered(t, Seen(World(nodes), Stored(nodes), Live(nodes), t), pairs) {
          AnsweredMore(t, Seen(World(nodes), Stored(nodes), Live(nodes), t), before, pairs);
        }
        index := index + 1;
      }
      assert triggers[..index] == triggers;
    }

    /** `GetTriggerInteractions`: only fair pairs are added, and every active trigger at or below this node is
        answered. */
    method GetTriggerInteractions(collisions: seq<Meeting>, parentTriggers: seq<GameObject>, ghost nodes: Nodes,
                                  ghost p: Path)
      returns (pairs: seq<Meeting>)
      requires Linked(nodes) && p in nodes && nodes[p] == this
      requires forall t <- parentTriggers :: t in Members(Stored(nodes)) && ActiveTrigger(t)
      ensures Top in nodes && collisions <= pairs && Fair(pairs, |collisions|, Members(Stored(nodes)))
      ensures AllAnswered(World(nodes), Stored(nodes), Live(nodes), p, pairs)
      decreases Weight(region), 1
    {
      hide Region, Small, HasBit, Tied, Grown, Linked, Seen, ActiveTrigger, AllAnswered, AnsweredUpTo, Answered;
      ghost var world, m, live := LinkedWorld(nodes, p), Stored(nodes), Live(nodes);
      LinkedNode(nodes, p);
      assert forall o <- objects :: p in m && o in m[p] && o in Members(m);
      hide Members;
      pairs := collisions;
      var triggers := parentTriggers;
      if objects != [] {
        var local;
        pairs, local := LocalTriggers(pairs, parentTriggers, Members(m));
        ghost var before := pairs;
        if local != [] {
          pairs := AskAll(local, pairs, nodes, p);
        }
        assert forall i | 0 <= i < |before| :: pairs[i] == before[i];
        triggers := triggers + local;
      }
      AnsweredStart(world, m, live, p, pairs);
      pairs := TriggersBelow(pairs, triggers, nodes, p);
    }

    /** The children of `GetTriggerInteractions`. */
    method TriggersBelow(collisions: seq<Meeting>, triggers: seq<GameObject>, ghost nodes: Nodes, ghost p: Path)
      returns (pairs: seq<Meeting>)
      requires Linked(nodes) && p in nodes && nodes[p] == this && Top in nodes
      requires forall t <- triggers :: t in Members(Stored(nodes)) && ActiveTrigger(t)
      requires AnsweredUpTo(World(nodes), Stored(nodes), Live(nodes), p, collisions, 0)
      ensures collisions <= pairs && Fair(pairs, |collisions|, Members(Stored(nodes)))
      ensures AllAnswered(World(nodes), Stored(nodes), Live(nodes), p, pairs)
      decreases Weight(region), 0
    {
      hide Region, Small, HasBit, Tied, Grown, Linked, Seen, ActiveTrigger, AllAnswered, AnsweredUpTo, Answered, Octant;
      ghost var world, m, live := World(nodes), Stored(nodes), Live(nodes);
      LinkedNode(nodes, p);
      assert m.Keys == nodes.Keys;
      pairs := collisions;
      if active == 0 {
        EmptyMask(active);
        AnsweredEnd(world, m, live, p, pairs, 0);
        return;
      }
      var index := 0;
      while index < 8
        invariant 0 <= index <= 8
        invariant collisions <= pairs && Fair(pairs, |collisions|, Members(m))
        invariant AnsweredUpTo(world, m, live, p, pairs, index)
      {
        ghost var before := pairs;
        if child[index] != null {
          LinkedNode(nodes, Kid(p, index));
          KidRegion(world, p, index);
          OctantLighter(region, index);
          pairs := child[index].GetTriggerInteractions(pairs, triggers, nodes, Kid(p, index));
          assert forall i | 0 <= i < |before| :: pairs[i] == before[i];
        }
        AnsweredStep(world, m, live, p, before, pairs, index);
        index := index + 1;
      }
      AnsweredEnd(world, m, live, p, pairs, 8);
    }

    /** Every reported pair is noted at its trigger. */
    static method Note(pairs: seq<Meeting>, ghost members: set<GameObject>, ghost known: set<GameObject>)
      requires Fair(pairs, 0, members) && members <= known
      modifies known`states
      ensures forall t <- known :: Noted(t, old(t.states), t.states, pairs)
    {
      var index := 0;
      assert pairs[..0] == [];
      while index < |pairs|
        invariant 0 <= index <= |pairs|
        invariant forall t <- known :: Noted(t, old(t.states), t.states, pairs[..index])
      {
        var (trigger, o) := pairs[index];
        assert pairs[..index + 1] == pairs[..index] + [(trigger, o)];
        assert o != trigger.owner by { assert Interacts(pairs[index].0, pairs[index].1); }
        forall t <- known { NotedPush(t, old(t.states), t.states, pairs[..index], (trigger, o)); }
        trigger.AddObject(o);
        index := index + 1;
      }
      assert pairs[..index] == pairs;
    }

    /** The end of `Update` at the top: the interactions are collected and noted. */
    method Interact(ghost known: set<GameObject>, ghost nodes: Nodes) returns (ghost pairs: seq<Meeting>)
      requires Linked(nodes) && Top in nodes && nodes[Top] == this
      requires Members(Stored(nodes)) <= known
      modifies known`states
      ensures Fair(pairs, 0, Members(Stored(nodes)))
      ensures AllAnswered(World(nodes), Stored(nodes), Live(nodes), Top, pairs)
      ensures forall t <- known :: Noted(t, old(t.states), t.states, pairs)
    {
      hide Linked, Noted, Answered, Seen, ActiveTrigger, Stored, Live;
      var collisions := GetTriggerInteractions([], [], nodes, Top);
      Note(collisions, Members(Stored(nodes)), known);
      pairs := collisions;
    }

    // ----- the tick

    /** `Insert` and the ages: the nodes that were there keep theirs. */
    method InsertAged(o: GameObject, ghost nodes: Nodes, ghost p: Path) returns (ok: bool, ghost after: Nodes)
      requires Linked(nodes) && p in nodes && nodes[p] == this
      modifies nodes.Values`objects, nodes.Values`child, nodes.Values`active
      ensures Linked(after) && Top in nodes && Top in after && World(after) == World(nodes)
      ensures forall q <- nodes.Keys :: q in after && after[q] == nodes[q]
      ensures forall q <- after.Keys - nodes.Keys :: fresh(after[q])
      ensures var home := Home(World(nodes), old(Stored(nodes)), p, o.box);
        && ok == home.Some?
        && Stored(after) == if home.Some? then Put(old(Stored(nodes)), home.value, o) else old(Stored(nodes))
      ensures Ages(after) == AgesFor(old(Ages(nodes)), after.Keys)
    {
      hide Region, Small, HasBit, Tied, Home, Put, Stored;
      LinkedNode(nodes, p);
      hide Grown, Linked;
      ok, after := Insert(o, nodes, p);
    }

    /** `Insert` with what it keeps. */
    method Place(o: GameObject, ghost nodes: Nodes, ghost p: Path) returns (ok: bool, ghost after: Nodes)
      requires Linked(nodes) && p in nodes && nodes[p] == this && Sound(Stored(nodes), Ages(nodes))
      modifies nodes.Values`objects, nodes.Values`child, nodes.Values`active
      ensures Linked(after) && Top in nodes && Top in after && World(after) == World(nodes)
      ensures Sound(Stored(after), Ages(after))
      ensures forall q <- nodes.Keys :: q in after && after[q] == nodes[q]
      ensures forall q <- after.Keys - nodes.Keys :: fresh(after[q])
      ensures var home := Home(World(nodes), old(Stored(nodes)), p, o.box);
        && ok == home.Some?
        && Stored(after) == (if home.Some? then Put(old(Stored(nodes)), home.value, o) else old(Stored(nodes)))
        && Total(Stored(after)) == old(Total(Stored(nodes))) + (if ok then multiset{o} else multiset{})
        && (!ok ==> !World(nodes).Contains(o.box))
      ensures Ages(after) == AgesFor(old(Ages(nodes)), after.Keys)
    {
      hide Region, Small, HasBit, Tied, Home, Put, Total, Sound, Linked, Grown, Stored, Ages;
      ghost var m, ages := Stored(nodes), Ages(nodes);
      LinkedShape(nodes);
      ok, after := InsertAged(o, nodes, p);
      LinkedShape(after);
      InsertionKeeps(World(nodes), m, ages, p, o, o.box, Stored(after), Ages(after));
    }

    /** The queued objects of a built top node, inserted one by one. */
    method InsertQueue(ghost nodes: Nodes, ghost p: Path, ghost boxes: Boxes, ghost exempt: set<GameObject>)
      returns (ghost after: Nodes, ghost rejected: multiset<GameObject>)
      requires Linked(nodes) && p in nodes && nodes[p] == this && Sound(Stored(nodes), Ages(nodes))
      requires queue == [] || p == Top
      requires Current(boxes) && forall o <- queue :: o in boxes
      requires Top in nodes && Placed(boxes, World(nodes), Stored(nodes), exempt)
      modifies nodes.Values`objects, nodes.Values`child, nodes.Values`active
      ensures Linked(after) && Top in after && World(after) == World(nodes) && Sound(Stored(after), Ages(after))
      ensures forall q <- nodes.Keys :: q in after && after[q] == nodes[q]
      ensures forall q <- after.Keys - nodes.Keys :: fresh(after[q])
      ensures Absorbed(boxes, World(nodes), old(Stored(nodes)), Stored(after), queue, rejected, exempt)
      ensures Ages(after) == AgesFor(old(Ages(nodes)), after.Keys)
      ensures queue == [] ==> after == nodes
    {
      hide Sound, Placed, Linked, Stored, Ages, Absorbed, Total, BoxOf, Extends, AgesFor;
      ghost var m, ages := Stored(nodes), Ages(nodes);
      LinkedShape(nodes);
      AgesSame(ages);
      after, rejected := nodes, multiset{};
      AbsorbedNone(boxes, World(nodes), m, exempt);
      var index := 0;
      assert queue[..0] == [];
      while index < |queue|
        invariant 0 <= index <= |queue|
        invariant Linked(after) && Top in after && World(after) == World(nodes) && Sound(Stored(after), Ages(after))
        invariant forall q <- nodes.Keys :: q in after && after[q] == nodes[q]
        invariant forall q <- after.Keys - nodes.Keys :: fresh(after[q])
        invariant nodes.Keys == ages.Keys <= after.Keys
        invariant Absorbed(boxes, World(nodes), m, Stored(after), queue[..index], rejected, exempt)
        invariant Ages(after) == AgesFor(ages, after.Keys)
        invariant index == 0 ==> after == nodes
      {
        ghost var before := after;
        after, rejected := AbsorbOne(queue[index], queue[..index], rejected, m, after, boxes, exempt);
        AgesTwice(ages, before.Keys, after.Keys);
        assert queue[..index + 1] == queue[..index] + [queue[index]];
        index := index + 1;
      }
      assert queue[..index] == queue;
    }

    /** One queued object more. */
    method AbsorbOne(o: GameObject, ghost done: seq<GameObject>, ghost r1: multiset<GameObject>,
                     ghost m: map<Path, seq<GameObject>>, ghost nodes: Nodes, ghost boxes: Boxes,
                     ghost exempt: set<GameObject>)
      returns (ghost after: Nodes, ghost rejected: multiset<GameObject>)
      requires Linked(nodes) && Top in nodes && nodes[Top] == this && Sound(Stored(nodes), Ages(nodes))
      requires Current(boxes) && o in boxes
      requires Absorbed(boxes, World(nodes), m, Stored(nodes), done, r1, exempt)
      modifies nodes.Values`objects, nodes.Values`child, nodes.Values`active
      ensures Linked(after) && Top in after && World(after) == World(nodes) && Sound(Stored(after), Ages(after))
      ensures forall q <- nodes.Keys :: q in after && after[q] == nodes[q]
      ensures forall q <- after.Keys - nodes.Keys :: fresh(after[q])
      ensures Absorbed(boxes, World(nodes), m, Stored(after), done + [o], rejected, exempt)
      ensures Ages(after) == AgesFor(old(Ages(nodes)), after.Keys)
    {
      hide Sound, Placed, Linked, Stored, Ages, Total, BoxOf, Extends, QueueIn, QueueOut, Home, Put, AgesFor;
      ghost var m1, r := Stored(nodes), multiset{};
      after, r := PlaceQueued(o, nodes, boxes, exempt);
      AbsorbedMore(boxes, World(nodes), m, m1, Stored(after), done, r1, exempt, o, r);
      rejected := r1 + r;
    }

    /** One queued object, inserted at the top. */
    method PlaceQueued(o: GameObject, ghost nodes: Nodes, ghost boxes: Boxes, ghost exempt: set<GameObject>)
      returns (ghost after: Nodes, ghost rejected: multiset<GameObject>)
      requires Linked(nodes) && Top in nodes && nodes[Top] == this && Sound(Stored(nodes), Ages(nodes))
      requires Current(boxes) && o in boxes
      requires Placed(boxes, World(nodes), Stored(nodes), exempt)
      modifies nodes.Values`objects, nodes.Values`child, nodes.Values`active
      ensures Linked(after) && Top in after && World(after) == World(nodes)
      ensures Sound(Stored(after), Ages(after)) && Placed(boxes, World(nodes), Stored(after), exempt)
      ensures forall q <- nodes.Keys :: q in after && after[q] == nodes[q]
      ensures forall q <- after.Keys - nodes.Keys :: fresh(after[q])
      ensures Total(Stored(after)) + rejected == old(Total(Stored(nodes))) + multiset{o}
      ensures Extends(old(Stored(nodes)), Stored(after))
      ensures forall x <- rejected :: !World(nodes).Contains(BoxOf(boxes, x))
      ensures var home := Home(World(nodes), old(Stored(nodes)), Top, BoxOf(boxes, o));
        && Stored(after) == (if home.Some? then Put(old(Stored(nodes)), home.value, o) else old(Stored(nodes)))
        && rejected == if home.Some? then multiset{} else multiset{o}
      ensures Ages(after) == AgesFor(old(Ages(nodes)), after.Keys)
    {
      hide Region, Small, HasBit, Tied, Home, Total, Sound, PlacedAt, Linked, Grown, Put, Ages, Stored, Extends;
      ghost var m := Stored(nodes);
      ghost var home := Home(World(nodes), m, Top, o.box);
      ghost var m' := if home.Some? then Put(m, home.value, o) else m;
      PutExtends(m, home, o);
      LinkedShape(nodes);
      TopInsertionPlaced(boxes, World(nodes), m, o, exempt, m');
      var ok;
      ok, after := Place(o, nodes, Top);
      rejected := if ok then multiset{} else multiset{o};
    }

    /** The queue is appended to the objects and cleared. */
    method JoinQueue(ghost nodes: Nodes, ghost p: Path)
      requires Linked(nodes) && p in nodes && nodes[p] == this
      modifies this`objects, this`queue
      ensures queue == [] && objects == old(objects + queue)
      ensures Stored(nodes) == old(Joined(Stored(nodes), p, queue))
    {
      hide Tied;
      LinkedPaths(nodes);
      var index := 0;
      while index < |queue|
        invariant 0 <= index <= |queue| && queue == old(queue)
        invariant objects == old(objects) + queue[..index]
      {
        objects := objects + [queue[index]];
        index := index + 1;
      }
      assert queue[..index] == queue;
      queue := [];
    }

    method JoinAndBuild(ghost boxes: Boxes, ghost nodes: Nodes, ghost p: Path) returns (ghost after: Nodes)
      requires Linked(nodes) && p in nodes && nodes[p] == this
      requires Current(boxes) && forall o <- objects + queue :: o in boxes
      modifies this`objects, this`child, this`active, this`queue
      ensures Linked(after) && Top in nodes && Top in after && World(after) == World(nodes) && queue == []
      ensures p in after && after[p] == this && SameOutside(nodes, after, p)
      ensures forall q <- after.Keys ::
        (q in nodes && after[q] == nodes[q]) || (fresh(after[q]) && AgeOf(after[q]) == NEW_AGE)
      ensures Stored(after) == Rebuilt(boxes, World(nodes), old(Joined(Stored(nodes), p, queue)), p)
    {
      hide Tied, Rebuilt, Joined, Region, Small, Linked, Stored, SameOutside;
      JoinQueue(nodes, p);
      after := BuildTree(boxes, nodes, p);
    }

    method SetBuilt(ghost nodes: Nodes)
      requires Linked(nodes)
      modifies this`built, this`ready
      ensures built && ready && Linked(nodes) && Stored(nodes) == old(Stored(nodes))
    {
      hide Linked, Stored;
      built := true;
      ready := true;
    }

    /** The first update of a node: the queue joins the objects, and the subtree is built. */
    method BuildFirst(ghost boxes: Boxes, ghost nodes: Nodes, ghost p: Path) returns (ghost after: Nodes)
      requires Linked(nodes) && p in nodes && nodes[p] == this
      requires Current(boxes) && forall o <- objects + queue :: o in boxes
      modifies this`objects, this`child, this`active, this`queue, this`built, this`ready
      ensures Linked(after) && Top in nodes && Top in after && World(after) == World(nodes)
      ensures p in after && after[p] == this && SameOutside(nodes, after, p)
      ensures forall q <- after.Keys :: (q in nodes && after[q] == nodes[q]) || fresh(after[q])
      ensures Stored(after) == Rebuilt(boxes, World(nodes), old(Joined(Stored(nodes), p, queue)), p)
      ensures BuiltAges(old(Ages(nodes)), Ages(after), p)
    {
      hide Tied, Rebuilt, Joined, Region, Small, Linked, Stored, Outside, BuiltAges, SameOutside;
      ghost var m, ages, q := Stored(nodes), Ages(nodes), queue;
      LinkedPaths(nodes);
      LinkedShape(nodes);
      after := JoinAndBuild(boxes, nodes, p);
      BuiltShape(boxes, nodes, after, m, p, q);
      SetBuilt(after);
      BuiltNodes(ages, nodes, after, p);
    }

    /** The first step of `Update`: the queue is taken in. */
    method Settle(ghost boxes: Boxes, ghost exempt: set<GameObject>, ghost movers: set<GameObject>, ghost nodes: Nodes,
                  ghost p: Path)
      returns (ghost after: Nodes, ghost rejected: multiset<GameObject>, ghost overwritten: multiset<GameObject>)
      requires Good(nodes, boxes, exempt) && p in nodes && nodes[p] == this
      requires p.Kid? ==> p.up in nodes && nodes[p.up].built
      requires forall o <- queue :: o in boxes
      modifies nodes.Values`objects, nodes.Values`child, nodes.Values`active, this`queue, this`built, this`ready
      ensures Linked(after) && Follows(nodes, after, p)
      ensures forall q <- after.Keys :: (q in nodes && after[q] == nodes[q]) || fresh(after[q])
      ensures Settles(old(Now(nodes)), Now(after), p, boxes, exempt, movers, old(queue), rejected, overwritten)
    {
      hide Fine, Linked, Settles, Follows, SoundAt, Now;
      GoodNode(nodes, boxes, exempt, p);
      SoundFlags(nodes, p);
      if !ready {
        if !built {
          after, overwritten := SettleUnbuilt(boxes, exempt, movers, nodes, p);
          rejected := multiset{};
        } else {
          after, rejected := SettleBuilt(boxes, exempt, movers, nodes, p);
          overwritten := multiset{};
        }
      } else {
        after, rejected, overwritten := nodes, multiset{}, multiset{};
        SettledAlready(nodes, p, boxes, exempt, movers, queue);
      }
    }

    method SettleUnbuilt(ghost boxes: Boxes, ghost exempt: set<GameObject>, ghost movers: set<GameObject>,
                         ghost nodes: Nodes, ghost p: Path)
      returns (ghost after: Nodes, ghost overwritten: multiset<GameObject>)
      requires Good(nodes, boxes, exempt) && p in nodes && nodes[p] == this && !built && (queue == [] || p == Top)
      requires p.Kid? ==> p.up in nodes && nodes[p.up].built
      requires forall o <- queue :: o in boxes
      modifies this`objects, this`child, this`active, this`queue, this`built, this`ready
      ensures Linked(after) && Follows(nodes, after, p)
      ensures forall q <- after.Keys :: (q in nodes && after[q] == nodes[q]) || fresh(after[q])
      ensures Settles(old(Now(nodes)), Now(after), p, boxes, exempt, movers, old(queue), multiset{}, overwritten)
    {
      hide Rebuilt, Linked, SameOutside, Fine, SoundAt, BuiltAges, Overwritten, Settles, Stored, Ages, Joined;
      ghost var s, q := Now(nodes), queue;
      GoodNode(nodes, boxes, exempt, p);
      if p.Kid? { GoodNode(nodes, boxes, exempt, p.up); }
      after := BuildFirst(boxes, nodes, p);
      LinkedShape(after);
      SettlesUnbuilt(s, Now(after), p, boxes, exempt, movers, q);
      assert p in Joined(s.m, p, q) by { JoinedHas(s.m, p, q); }
      overwritten := Total(Overwritten(boxes, s.world, Joined(s.m, p, q), p));
    }

    method SettleBuilt(ghost boxes: Boxes, ghost exempt: set<GameObject>, ghost movers: set<GameObject>,
                       ghost nodes: Nodes, ghost p: Path)
      returns (ghost after: Nodes, ghost rejected: multiset<GameObject>)
      requires Good(nodes, boxes, exempt) && p in nodes && nodes[p] == this && built && (queue == [] || p == Top)
      requires forall o <- queue :: o in boxes
      modifies nodes.Values`objects, nodes.Values`child, nodes.Values`active, this`queue, this`ready
      ensures Linked(after) && Follows(nodes, after, p)
      ensures forall q <- after.Keys :: (q in nodes && after[q] == nodes[q]) || fresh(after[q])
      ensures Settles(old(Now(nodes)), Now(after), p, boxes, exempt, movers, old(queue), rejected, multiset{})
    {
      hide Linked, Fine, SoundAt, Settles, Stored, Placed, Sound, Grown, Total, Ages, BoxOf, Below;
      ghost var s, q := Now(nodes), queue;
      GoodNode(nodes, boxes, exempt, p);
      FineParts(s, boxes, exempt);
      after, rejected := TakeQueue(nodes, p, boxes, exempt);
      LinkedShape(after);
      SettlesBuilt(s, Now(after), p, boxes, exempt, movers, q, rejected);
    }

    /** The queue of a built node is inserted and then empty. */
    method TakeQueue(ghost nodes: Nodes, ghost p: Path, ghost boxes: Boxes, ghost exempt: set<GameObject>)
      returns (ghost after: Nodes, ghost rejected: multiset<GameObject>)
      requires Linked(nodes) && p in nodes && nodes[p] == this && built && Sound(Stored(nodes), Ages(nodes))
      requires (queue == [] || p == Top) && Current(boxes) && forall o <- queue :: o in boxes
      requires Top in nodes && Placed(boxes, World(nodes), Stored(nodes), exempt)
      modifies nodes.Values`objects, nodes.Values`child, nodes.Values`active, this`queue, this`ready
      ensures Linked(after) && Follows(nodes, after, p) && Sound(Stored(after), Ages(after))
      ensures forall q <- nodes.Keys :: q in after && after[q] == nodes[q]
      ensures forall q <- after.Keys - nodes.Keys :: fresh(after[q])
      ensures Absorbed(boxes, World(nodes), old(Stored(nodes)), Stored(after), old(queue), rejected, exempt)
      ensures old(Ages(nodes)).Keys == nodes.Keys && p in old(Ages(nodes))
      ensures Ages(after) ==
        AgesFor(old(Ages(nodes)), after.Keys)[p := old(Ages(nodes))[p].(ready := true, queued := false)]
    {
      hide Linked, SoundAt, Stored, Placed, Sound, Grown, Total, Ages, BoxOf, Below, Absorbed, AgesFor;
      LinkedShape(nodes);
      AgesAre(nodes);
      after, rejected := InsertQueue(nodes, p, boxes, exempt);
      ClearQueue(after, p);
    }

    method ClearQueue(ghost nodes: Nodes, ghost p: Path)
      requires Linked(nodes) && p in nodes && nodes[p] == this
      requires Sound(Stored(nodes), Ages(nodes)) && built
      modifies this`queue, this`ready
      ensures queue == [] && ready && Linked(nodes) && Stored(nodes) == old(Stored(nodes))
      ensures Sound(Stored(nodes), Ages(nodes))
      ensures Ages(nodes) == old(Ages(nodes))[p := old(AgeOf(this)).(ready := true, queued := false)]
    {
      hide Linked, Sound, Stored;
      LinkedShape(nodes);
      ClearSound(Stored(nodes), Ages(nodes), p);
      hide Ages;
      EmptyQueue(nodes, p);
    }

    method EmptyQueue(ghost nodes: Nodes, ghost p: Path)
      requires Linked(nodes) && p in nodes && nodes[p] == this
      modifies this`queue, this`ready
      ensures queue == [] && ready && Linked(nodes) && Stored(nodes) == old(Stored(nodes))
      ensures Ages(nodes) == old(Ages(nodes))[p := old(AgeOf(this)).(ready := true, queued := false)]
    {
      hide Linked, Stored;
      ghost var ages := Ages(nodes);
      LinkedPaths(nodes);
      queue := [];
      ready := true;
      assert Ages(nodes) == ages[p := AgeOf(this)];
    }

    /** The lifespan rules. */
    method StepLifespan()
      modifies this`lifespan, this`maxLifespan
      ensures AgeOf(this) == NextAge(old(AgeOf(this)), objects == [], active == 0)
    {
      if objects == [] {
        if active == 0 {
          if lifespan == -1 {
            lifespan := maxLifespan;
          } else if lifespan > 0 {
            lifespan := lifespan - 1;
          }
        }
      } else {
        if lifespan != -1 {
          if maxLifespan <= 64 {
            maxLifespan := Int8(maxLifespan * 2);
          }
          lifespan := -1;
        }
      }
    }

    method AgeOnce(ghost nodes: Nodes, ghost p: Path)
      requires Linked(nodes) && Top in nodes && p in nodes && nodes[p] == this
      requires p in Now(nodes).m && p in Now(nodes).ages && Now(nodes).ages[p] == AgeOf(this)
        && Now(nodes).m[p] == objects
      modifies this`lifespan, this`maxLifespan
      ensures Linked(nodes) && Now(nodes) == Aged(old(Now(nodes)), p)
    {
      hide Linked, HasBit, Region, Small, Stored, NextAge, AgeOf, Leaf;
      ghost var ages := Ages(nodes);
      LeafMask(nodes, p);
      LinkedPaths(nodes);
      StepLifespan();
      assert Ages(nodes) == ages[p := AgeOf(this)];
    }

    /** Objects marked for deletion are erased, from the back. */
    method DropMarked(ghost nodes: Nodes, ghost p: Path) returns (ghost gone: multiset<GameObject>)
      requires Linked(nodes) && Top in nodes && p in nodes && nodes[p] == this
      modifies this`objects
      ensures Linked(nodes) && Now(nodes) == Thinned(old(Now(nodes)), p, objects)
      ensures multiset(objects) + gone == old(multiset(objects))
      ensures (forall o <- gone :: o.marked) && forall o <- objects :: !o.marked
      ensures objects == Retained(old(objects))
    {
      hide Linked, Ages, Retained, Stored;
      var kept;
      kept, gone := Unmarked(objects);
      SetObjects(kept, nodes, p);
    }

    method SetObjects(kept: seq<GameObject>, ghost nodes: Nodes, ghost p: Path)
      requires Linked(nodes) && p in nodes && nodes[p] == this
      modifies this`objects
      ensures objects == kept && Linked(nodes) && Stored(nodes) == old(Stored(nodes))[p := kept]
    {
      hide Linked;
      LinkedPaths(nodes);
      objects := kept;
    }

    static method Unmarked(all: seq<GameObject>) returns (s: seq<GameObject>, ghost gone: multiset<GameObject>)
      ensures s == Retained(all)
      ensures multiset(s) + gone == multiset(all)
      ensures (forall o <- gone :: o.marked) && forall o <- s :: !o.marked
    {
      hide Retained;
      s := all;
      var index := |s|;
      RetainedEnd(all);
      while index > 0
        invariant 0 <= index <= |all| && index <= |s|
        invariant s == all[..index] + Retained(all[index..])
      {
        index := index - 1;
        RetainedStep(all, index);
        assert s[index] == all[index] && s[..index] == all[..index];
        if s[index].marked {
          s := s[..index] + s[index + 1..];
        }
      }
      assert all[0..] == all;
      gone := RetainedParts(all);
    }

    /** The objects that moved are collected and become clean. */
    method TakeMoved() returns (moved: seq<GameObject>)
      modifies (set o | o in objects)`dirty
      ensures forall o <- moved :: o in objects && old(o.dirty)
      ensures forall o <- objects :: !o.dirty && (old(o.dirty) ==> o in moved)
      ensures Distinct(moved)
      ensures moved == MovedOf(objects, set o | o in objects && old(o.dirty))
    {
      hide MovedOf, Distinct;
      moved := [];
      ghost var dirtied := set o | o in objects && o.dirty;
      MovedNone(objects, dirtied);
      var index := 0;
      while index < |objects|
        invariant 0 <= index <= |objects|
        invariant forall o <- objects :: o.dirty <==> o in dirtied && o !in objects[..index]
        invariant moved == MovedOf(objects[..index], dirtied)
      {
        MovedNext(objects, dirtied, index);
        var o := objects[index];
        if o.dirty {
          o.dirty := false;
          moved := moved + [o];
        }
        index := index + 1;
      }
      assert objects[..index] == objects;
      MovedIs(objects, dirtied);
    }

    /** Clears child slot `k` and its bit. */
    method Detach(k: nat, ghost nodes: Nodes, ghost p: Path) returns (ghost after: Nodes)
      requires k < 8 && Linked(nodes) && p in nodes && nodes[p] == this && Kid(p, k) in nodes
      requires forall i: Corner :: Kid(Kid(p, k), i) !in nodes
      modifies this`child, this`active
      ensures after == nodes - {Kid(p, k)} && Linked(after)
    {
      hide Region, Small, Bit, HasBit, Octant, Below, Tied, Grown;
      DetachPlan(nodes, p, k);
      after := nodes - {Kid(p, k)};
      ghost var ties := Ties(nodes);
      child := child[k := null];
      active := active ^ Bit(k);
      assert Ties(nodes) == ties[p := TieOf(this)];
      TiesRemoved(nodes, Kid(p, k));
    }

    /** The expiry rule for the child in slot `k`. */
    method ExpireChild(k: nat, ghost nodes: Nodes, ghost p: Path) returns (ghost after: Nodes)
      requires k < 8 && Linked(nodes) && Top in nodes && p in nodes && nodes[p] == this && Kid(p, k) in nodes
      requires |child| == 8 && child[k] == nodes[Kid(p, k)]
      requires nodes[Kid(p, k)].lifespan == 0 && nodes[Kid(p, k)].objects == [] ==>
        forall i: Corner :: Kid(Kid(p, k), i) !in nodes
      modifies this`child, this`active, nodes.Values`lifespan
      ensures Linked(after) && Top in after && Now(after) == Expired(old(Now(nodes)), p, k)
      ensures after == nodes || after == nodes - {Kid(p, k)}
    {
      hide Linked, HasBit, Region, Small, Expired, Now;
      NotBelowKid(p, k);
      after := nodes;
      var childNode := child[k];
      if childNode.lifespan == 0 {
        if childNode.objects == [] {
          ExpiredAway(nodes, p, k);
          after := DetachNow(k, nodes, p);
        } else {
          ExpiredReset(nodes, p, k);
          childNode.ResetLifespan(nodes, Kid(p, k));
        }
      } else {
        ExpiredNot(nodes, p, k);
      }
    }

    method DetachNow(k: nat, ghost nodes: Nodes, ghost p: Path) returns (ghost after: Nodes)
      requires k < 8 && Linked(nodes) && Top in nodes && p in nodes && nodes[p] == this && Kid(p, k) in nodes
      requires forall i: Corner :: Kid(Kid(p, k), i) !in nodes
      modifies this`child, this`active
      ensures Linked(after) && Top in after && after == nodes - {Kid(p, k)}
      ensures Now(after) == State(World(nodes), old(Stored(nodes)) - {Kid(p, k)}, old(Ages(nodes)) - {Kid(p, k)})
    {
      hide Linked, HasBit, Region, Small, Stored, Ages, Below;
      NotBelowKid(p, k);
      NowWithout(nodes, Kid(p, k));
      after := Detach(k, nodes, p);
    }

    method ResetLifespan(ghost nodes: Nodes, ghost p: Path)
      requires Linked(nodes) && Top in nodes && p in nodes && nodes[p] == this && p in Now(nodes).ages
      modifies this`lifespan
      ensures Linked(nodes)
      ensures Now(nodes) == old(Now(nodes)).(ages := old(Ages(nodes))[p := old(AgeOf(this)).(lifespan := -1)])
    {
      hide Linked, Stored;
      LinkedPaths(nodes);
      ghost var ages := Ages(nodes);
      lifespan := -1;
      assert Ages(nodes) == ages[p := AgeOf(this)];
    }

    /** The expiry loop: children whose lifespan ran out are deleted, or saved if they hold objects again. */
    method Expire(ghost boxes: Boxes, ghost exempt: set<GameObject>, ghost movers: set<GameObject>, ghost nodes: Nodes,
                  ghost p: Path)
      returns (ghost after: Nodes)
      requires Good(nodes, boxes, exempt) && p in nodes && nodes[p] == this
      modifies this`child, this`active, nodes.Values`lifespan
      ensures Linked(after) && Follows(nodes, after, p)
      ensures forall q <- after.Keys :: q in nodes && after[q] == nodes[q]
      ensures p in old(Now(nodes)).m && p in old(Now(nodes)).ages
      ensures Trimmed(old(Now(nodes)), Now(after), p, boxes, exempt, movers)
      ensures Now(after) == ExpiredUpTo(old(Now(nodes)), p, 8)
    {
      hide Linked, HasBit, Region, Small, Fine, Trimmed, Expired, Now, SoundAt, Below, Shifted, ExpiredUpTo,
        SameOutside;
      ghost var s := Now(nodes);
      ExpiredNone(s, p);
      OutsideSelf(nodes, p);
      GoodNode(nodes, boxes, exempt, p);
      TrimmedSelf(s, p, boxes, exempt, movers);
      after := nodes;
      ghost var mask := active;
      var flags, index := active, 0;
      ShiftedNone(mask);
      ShiftedBit(mask, 0);
      LinkedNode(nodes, p);
      while flags != 0
        invariant flags == Shifted(mask, index)
        invariant Good(after, boxes, exempt) && p in after && after[p] == this && World(after) == World(nodes)
        invariant Trimmed(s, Now(after), p, boxes, exempt, movers)
        invariant forall q <- after.Keys :: q in nodes && after[q] == nodes[q]
        invariant SameOutside(nodes, after, p)
        invariant forall k: Corner | index <= k :: HasBit(mask, k) <==> Kid(p, k) in after
        invariant index <= 8 && Now(after) == ExpiredUpTo(s, p, index)
        decreases 8 - index
      {
        ShiftedBit(mask, index);
        ShiftedNext(mask, index);
        ExpiredNext(s, p, index);
        after := ExpireSlot(index, flags & 1 != 0, boxes, exempt, movers, s, mask, nodes, after, p);
        flags := flags >> 1;
        index := index + 1;
        ShiftedBit(mask, index);
      }
      ShiftedBit(mask, index);
      NowNode(after, p);
      assert forall k: Corner | index <= k :: Kid(p, k) !in Now(after).m;
      ExpiredRest(s, p, index);
    }

    /** One bit of the child mask. */
    method ExpireSlot(k: nat, visit: bool, ghost boxes: Boxes, ghost exempt: set<GameObject>,
                      ghost movers: set<GameObject>, ghost s: State, ghost mask: bv8, ghost all: Nodes,
                      ghost nodes: Nodes, ghost p: Path)
      returns (ghost after: Nodes)
      requires k < 8 && Good(nodes, boxes, exempt) && p in nodes && nodes[p] == this && p in s.m && p in s.ages
      requires Trimmed(s, Now(nodes), p, boxes, exempt, movers) && SameOutside(all, nodes, p)
        && (visit <==> HasBit(mask, k))
      requires forall i: Corner | k <= i :: HasBit(mask, i) <==> Kid(p, i) in nodes
      modifies this`child, this`active, nodes.Values`lifespan
      ensures Good(after, boxes, exempt) && p in after && after[p] == this && Top in nodes
        && World(after) == World(nodes)
      ensures Trimmed(s, Now(after), p, boxes, exempt, movers) && SameOutside(all, after, p)
      ensures forall i: Corner | k + 1 <= i :: HasBit(mask, i) <==> Kid(p, i) in after
      ensures after == nodes || after == nodes - {Kid(p, k)}
      ensures Now(after) == Expired(old(Now(nodes)), p, k)
    {
      hide Linked, HasBit, Region, Small, Fine, Trimmed, Expired, Now, SoundAt, Below;
      GoodNode(nodes, boxes, exempt, p);
      KidBelow(p, k);
      after := nodes;
      if visit {
        after := ExpireAt(k, boxes, exempt, movers, s, nodes, p);
      } else {
        ExpiredAbsent(Now(nodes), p, k);
      }
    }

    method ExpireAt(k: nat, ghost boxes: Boxes, ghost exempt: set<GameObject>, ghost movers: set<GameObject>,
                    ghost s: State, ghost nodes: Nodes, ghost p: Path)
      returns (ghost after: Nodes)
      requires k < 8 && Good(nodes, boxes, exempt) && p in nodes && nodes[p] == this && Kid(p, k) in nodes
      requires p in s.m && p in s.ages && Trimmed(s, Now(nodes), p, boxes, exempt, movers)
      modifies this`child, this`active, nodes.Values`lifespan
      ensures Good(after, boxes, exempt) && p in after && after[p] == this && Top in nodes
        && World(after) == World(nodes)
      ensures Trimmed(s, Now(after), p, boxes, exempt, movers)
      ensures after == nodes || after == nodes - {Kid(p, k)}
      ensures Now(after) == Expired(old(Now(nodes)), p, k)
    {
      hide Linked, HasBit, Region, Small, Fine, Trimmed, Expired, Now;
      ghost var s1 := Now(nodes);
      GoodNode(nodes, boxes, exempt, p);
      GoodNode(nodes, boxes, exempt, Kid(p, k));
      SoundExpiry(nodes, boxes, exempt, Kid(p, k));
      LinkedNode(nodes, p);
      ExpiredKeeps(s1, p, k, boxes, exempt, movers);
      TrimmedFine(s1, Expired(s1, p, k), p, boxes, exempt, movers);
      TrimmedTrans(s, s1, Expired(s1, p, k), p, boxes, exempt, movers);
      NotBelowKid(p, k);
      after := ExpireChild(k, nodes, p);
    }

    /** `TakeMoved` and what it does to the flags. */
    method TakeMovedSeen(ghost boxes: Boxes, ghost nodes: Nodes) returns (moved: seq<GameObject>)
      requires forall o <- objects :: o in boxes
      requires Linked(nodes) && Top in nodes && Current(boxes)
      modifies boxes.Keys`dirty
      ensures Cleans(old(Seeing(boxes)), Seeing(boxes), objects, moved)
      ensures moved == MovedOf(objects, old(Seeing(boxes)).dirty)
      ensures Linked(nodes) && Now(nodes) == old(Now(nodes)) && Current(boxes)
    {
      hide Linked, Now;
      MovedSeen(objects, (set o | o in objects && o.dirty), Seeing(boxes).dirty);
      moved := TakeMoved();
      assert Seeing(boxes).dirty == old(Seeing(boxes)).dirty - Elements(moved);
    }

    method AgeAndDrop(ghost nodes: Nodes, ghost p: Path) returns (ghost gone: multiset<GameObject>)
      requires Linked(nodes) && Top in nodes && p in nodes && nodes[p] == this
      modifies this`objects, this`lifespan, this`maxLifespan
      ensures Linked(nodes) && p in old(Now(nodes)).m && p in old(Now(nodes)).ages
      ensures Now(nodes) == Thinned(Aged(old(Now(nodes)), p), p, objects)
      ensures multiset(objects) + gone == old(multiset(objects))
      ensures (forall o <- gone :: o.marked) && forall o <- objects :: !o.marked
      ensures objects == Retained(old(objects))
    {
      hide Linked, Aged, Thinned, Retained;
      LinkedShape(nodes);
      AgeOnce(nodes, p);
      gone := DropMarked(nodes, p);
    }

    /** `Update` up to the children: the queue is taken in, the node ages, marked objects are dropped, moved ones
        collected, expired children deleted. */
    method Prepare(ghost boxes: Boxes, ghost pending: set<GameObject>, ghost nodes: Nodes, ghost p: Path)
      returns (moved: seq<GameObject>, ghost after: Nodes, ghost gone: multiset<GameObject>,
               ghost rejected: multiset<GameObject>, ghost overwritten: multiset<GameObject>)
      requires Good(nodes, boxes, pending + Seeing(boxes).dirty) && p in nodes && nodes[p] == this
      requires p.Kid? ==> p.up in nodes && nodes[p.up].built
      requires forall o <- queue :: o in boxes
      modifies nodes.Values, boxes.Keys`dirty
      ensures Linked(after) && Follows(nodes, after, p)
      ensures forall q <- after.Keys :: (q in nodes && after[q] == nodes[q]) || fresh(after[q])
      ensures Prepared(old(Now(nodes)), Now(after), p, old(Seeing(boxes)), Seeing(boxes), pending, old(queue), moved,
                       gone, rejected, overwritten)
      ensures (Now(after), Seeing(boxes), moved) == PreparedAs(old(Now(nodes)), old(Seeing(boxes)), p, old(queue))
    {
      hide Linked, Fine, Settles, Prepared, Now, Follows, PreparedAs;
      ghost var s, v, q := Now(nodes), Seeing(boxes), queue;
      ghost var mid;
      GoodNode(nodes, boxes, pending + v.dirty, p);
      mid, rejected, overwritten := Settle(boxes, pending + v.dirty, v.Movers(), nodes, p);
      FollowsTop(nodes, mid, p);
      ghost var s1 := Now(mid);
      moved, after, gone := PrepareSettled(boxes, pending, mid, p, s, q, rejected, overwritten);
      FollowsTrans(nodes, mid, after, p);
    }

    method PrepareSettled(ghost boxes: Boxes, ghost pending: set<GameObject>, ghost nodes: Nodes, ghost p: Path,
                          ghost s: State, ghost q: seq<GameObject>, ghost rejected: multiset<GameObject>,
                          ghost overwritten: multiset<GameObject>)
      returns (moved: seq<GameObject>, ghost after: Nodes, ghost gone: multiset<GameObject>)
      requires Linked(nodes) && Top in nodes && Current(boxes) && p in nodes && nodes[p] == this
      requires p in s.m && p in s.ages
      requires Settles(s, Now(nodes), p, boxes, pending + Seeing(boxes).dirty, Seeing(boxes).Movers(), q, rejected,
                       overwritten)
      modifies nodes.Values, boxes.Keys`dirty
      ensures Linked(after) && Follows(nodes, after, p)
      ensures forall x <- after.Keys :: x in nodes && after[x] == nodes[x]
      ensures Prepared(s, Now(after), p, old(Seeing(boxes)), Seeing(boxes), pending, q, moved, gone, rejected,
                       overwritten)
      ensures (Now(after), Seeing(boxes), moved) == PreparedAs(s, old(Seeing(boxes)), p, q)
    {
      hide Linked, Fine, Settles, Trimmed, Prepared, Now, Aged, Thinned, Cleans, Follows, Kept, MovedOf, PreparedAs;
      hide ExpiredUpTo;
      ghost var v, s1 := Seeing(boxes), Now(nodes);
      moved, gone := DropAndTake(boxes, pending, nodes, p, s, q, rejected, overwritten);
      after := Expire(boxes, pending + Elements(moved) + Seeing(boxes).dirty, Seeing(boxes).Movers(), nodes, p);
      FollowsTop(nodes, after, p);
      PreparedIs(s, s1, p, v, Seeing(boxes), pending, q, objects, moved, rejected, overwritten);
      PreparedBy(s, s1, Now(after), p, v, Seeing(boxes), pending, q, objects, moved, gone, rejected, overwritten);
    }

    method DropAndTake(ghost boxes: Boxes, ghost pending: set<GameObject>, ghost nodes: Nodes, ghost p: Path,
                       ghost s: State, ghost q: seq<GameObject>, ghost rejected: multiset<GameObject>,
                       ghost overwritten: multiset<GameObject>)
      returns (moved: seq<GameObject>, ghost gone: multiset<GameObject>)
      requires Linked(nodes) && Top in nodes && Current(boxes) && p in nodes && nodes[p] == this
      requires p in s.m && p in s.ages
      requires Settles(s, Now(nodes), p, boxes, pending + Seeing(boxes).dirty, Seeing(boxes).Movers(), q, rejected,
                       overwritten)
      modifies this`objects, this`lifespan, this`maxLifespan, boxes.Keys`dirty
      ensures p in old(Now(nodes)).m && p in old(Now(nodes)).ages
      ensures Now(nodes) == Thinned(Aged(old(Now(nodes)), p), p, objects)
      ensures Good(nodes, boxes, pending + Elements(moved) + Seeing(boxes).dirty)
      ensures multiset(objects) + gone == multiset(old(Now(nodes)).m[p])
      ensures (forall o <- gone :: o in old(Seeing(boxes)).marked)
        && forall o <- objects :: o !in old(Seeing(boxes)).marked
      ensures Cleans(old(Seeing(boxes)), Seeing(boxes), objects, moved)
      ensures objects == Kept(old(Now(nodes)).m[p], old(Seeing(boxes)).marked)
      ensures moved == MovedOf(objects, old(Seeing(boxes)).dirty)
    {
      hide Linked, Fine, Settles, Now, Aged, Thinned, Cleans, Retained, Kept, MovedOf, Total, Stored, Ages, Elements,
        Current;
      ghost var v, s1 := Seeing(boxes), Now(nodes);
      NowNode(nodes, p);
      SettledKnown(s, s1, p, boxes, pending + v.dirty, v.Movers(), q, rejected, overwritten);
      RetainedKept(objects, boxes);
      gone := AgeAndDrop(nodes, p);
      SettledThenThinned(s, s1, p, boxes, pending + v.dirty, v.Movers(), q, objects, gone, rejected, overwritten);
      MarkedSeen(boxes, objects, gone);
      moved := TakeMovedSeen(boxes, nodes);
      ExemptSame(v, Seeing(boxes), pending, objects, moved);
    }

    /** Climbs from this node to the nearest one whose region contains the box, or to the top. */
    method ClimbFrom(box: BoundingBox, ghost nodes: Nodes, ghost p: Path) returns (current: OctTree, ghost q: Path)
      requires Linked(nodes) && p in nodes && nodes[p] == this
      ensures Top in nodes && q == Start(World(nodes), p, box) && q in nodes && nodes[q] == current
    {
      hide Region, Small, HasBit, Tied, Grown;
      LinkedNode(nodes, p);
      current, q := this, p;
      if !box.IsPoint() {
        while !current.region.Contains(box)
          invariant q in nodes && nodes[q] == current && Top in nodes
          invariant current.region == Region(World(nodes), q)
          invariant Climb(World(nodes), p, box) == Climb(World(nodes), q, box)
          decreases Depth(q)
        {
          LinkedNode(nodes, q);
          if current.parent == null {
            break;
          }
          LinkedNode(nodes, q.up);
          current := current.parent;
          q := q.up;
        }
      }
    }

    /** Erases the first occurrence of an object that is here. */
    method EraseFirst(x: GameObject, ghost nodes: Nodes, ghost p: Path)
      requires Linked(nodes) && p in nodes && nodes[p] == this && x in objects
      modifies this`objects
      ensures Stored(nodes) == old(Stored(nodes))[p := Without(old(objects), x)]
    {
      hide Tied;
      LinkedPaths(nodes);
      var index := 0;
      while objects[index] != x
        invariant 0 <= index < |objects| && x !in objects[..index]
        decreases |objects| - index
      {
        assert objects[..index + 1] == objects[..index] + [objects[index]];
        assert objects == objects[..index + 1] + objects[index + 1..];
        index := index + 1;
      }
      WithoutAt(objects, index);
      objects := objects[..index] + objects[index + 1..];
    }

    /** One moved object is taken out and inserted again where it belongs now. */
    method Relocate(x: GameObject, ghost nodes: Nodes, ghost p: Path) returns (ghost after: Nodes)
      requires Linked(nodes) && p in nodes && nodes[p] == this && x in objects
      requires Top in nodes && p in Now(nodes).m
      modifies nodes.Values`objects, nodes.Values`child, nodes.Values`active
      ensures Linked(after) && Top in after
      ensures forall q <- nodes.Keys :: q in after && after[q] == nodes[q]
      ensures forall q <- after.Keys - nodes.Keys :: fresh(after[q])
      ensures Relocated(old(Now(nodes)), Now(after), p, x, x.box)
    {
      hide Tied, Linked, Region, Small, Home, Put, Start, Without, Stored, Ages, AgeOf, Climb, Vacant, Relocated, Grown;
      ghost var s := Now(nodes);
      NowNode(nodes, p);
      var current;
      ghost var q;
      current, q := ClimbFrom(x.box, nodes, p);
      EraseFirst(x, nodes, p);
      LinkedShape(nodes);
      var ok;
      ok, after := current.InsertAged(x, nodes, q);
      LinkedShape(after);
      RelocatedBy(s, Now(after), p, x, x.box);
    }

    /** The first of the moved objects that still wait is relocated. */
    method RelocateNext(x: GameObject, ghost rest: seq<GameObject>, ghost s: State, ghost v: View,
                        ghost others: set<GameObject>, ghost all: set<GameObject>, ghost inside: bool,
                        ghost r1: multiset<GameObject>, ghost nodes: Nodes, ghost p: Path)
      returns (ghost after: Nodes, ghost rejected: multiset<GameObject>)
      requires Linked(nodes) && Top in nodes && p in nodes && nodes[p] == this && Current(v.boxes)
      requires Moving(s, Now(nodes), p, v, others, [x] + rest, all, inside, r1)
      modifies nodes.Values`objects, nodes.Values`child, nodes.Values`active
      ensures Linked(after) && Top in after
      ensures forall q <- nodes.Keys :: q in after && after[q] == nodes[q]
      ensures forall q <- after.Keys - nodes.Keys :: fresh(after[q])
      ensures Moving(s, Now(after), p, v, others, rest, all, inside, rejected)
      ensures Now(after) == RelocatedAs(old(Now(nodes)), p, x, BoxOf(v.boxes, x))
    {
      hide Linked, Moving, Relocated, Now, RelocatedAs;
      ghost var s1 := Now(nodes);
      NowNode(nodes, p);
      MovingNext(s, s1, p, v, others, x, rest, all, inside, r1);
      after := Relocate(x, nodes, p);
      RelocatedIs(s1, Now(after), p, x, x.box);
      ghost var r2 := MovingStep(s, s1, Now(after), p, v, others, x, rest, all, inside, r1);
      rejected := r1 + r2;
    }

    /** The last step of `Update`: every moved object is relocated. */
    method RelocateAll(moved: seq<GameObject>, ghost v: View, ghost others: set<GameObject>, ghost inside: bool,
                       ghost nodes: Nodes, ghost p: Path)
      returns (ghost after: Nodes, ghost rejected: multiset<GameObject>)
      requires Linked(nodes) && Top in nodes && p in nodes && nodes[p] == this && Current(v.boxes)
      requires Moving(Now(nodes), Now(nodes), p, v, others, moved, Elements(moved), inside, multiset{})
      modifies nodes.Values`objects, nodes.Values`child, nodes.Values`active
      ensures Linked(after) && Top in after
      ensures forall q <- nodes.Keys :: q in after && after[q] == nodes[q]
      ensures forall q <- after.Keys - nodes.Keys :: fresh(after[q])
      ensures Moving(old(Now(nodes)), Now(after), p, v, others, [], Elements(moved), inside, rejected)
      ensures Now(after) == MovedOn(old(Now(nodes)), p, moved, v.boxes)
    {
      hide Linked, Moving, Now, MovedOn, RelocatedAs;
      ghost var s := Now(nodes);
      MovedOnNone(s, p, moved, v.boxes);
      after, rejected := nodes, multiset{};
      var index := 0;
      assert moved[0..] == moved;
      while index < |moved|
        invariant 0 <= index <= |moved|
        invariant Linked(after) && Top in after
        invariant forall q <- nodes.Keys :: q in after && after[q] == nodes[q]
        invariant forall q <- after.Keys - nodes.Keys :: fresh(after[q])
        invariant Moving(s, Now(after), p, v, others, moved[index..], Elements(moved), inside, rejected)
        invariant Now(after) == MovedOn(s, p, moved[..index], v.boxes)
      {
        MovedOnNext(s, p, moved, v.boxes, index);
        assert moved[index..] == [moved[index]] + moved[index + 1..];
        after, rejected := RelocateNext(moved[index], moved[index + 1..], s, v, others, Elements(moved), inside,
                                        rejected, after, p);
        index := index + 1;
      }
      assert moved[index..] == [] && moved[..index] == moved;
    }

    /** One active child is updated. */
    method UpdateChild(k: nat, ghost boxes: Boxes, ghost pending: set<GameObject>, ghost due: set<Corner>,
                       ghost s: State, ghost v: View, ghost g1: multiset<GameObject>, ghost r1: multiset<GameObject>,
                       ghost o1: multiset<GameObject>, ghost nodes: Nodes, ghost p: Path)
      returns (ghost after: Nodes, ghost gone: multiset<GameObject>, ghost rejected: multiset<GameObject>,
               ghost overwritten: multiset<GameObject>)
      requires k < 8 && k in due && Linked(nodes) && Top in nodes && p in nodes && nodes[p] == this && Current(boxes)
      requires Partway(s, Now(nodes), p, v, Seeing(boxes), pending, due, k, g1, r1, o1) && v.boxes == boxes
      requires OnceBut(Total(s.m), pending) && p in s.ages && s.ages[p].built
      modifies nodes.Values, boxes.Keys`dirty, boxes.Keys`states
      ensures Linked(after) && Follows(nodes, after, p)
      ensures forall q <- after.Keys :: (q in nodes && after[q] == nodes[q]) || fresh(after[q])
      ensures Partway(s, Now(after), p, v, Seeing(boxes), pending, due, k + 1, gone, rejected, overwritten)
      ensures (Now(after), Seeing(boxes)) == Updated(old(Now(nodes)), old(Seeing(boxes)), Kid(p, k), [])
      ensures p in nodes && Top in nodes && !Small(Region(World(nodes), p))
      ensures forall o <- boxes.Keys :: o.states == old(o.states)
      decreases Weight(region), 0
    {
      hide Linked, Partway, Now, Fine, Follows, Ticks, Region, Small, HasBit, Total, OnceBut, Updated;
      ghost var s1, v1, kid := Now(nodes), Seeing(boxes), Kid(p, k);
      PartwayOnce(s, s1, p, v, v1, pending, due, k, g1, r1, o1, pending);
      NowNode(nodes, p);
      GoodNode(nodes, boxes, pending + v1.dirty, kid);
      SoundFlags(nodes, kid);
      KidLighter(nodes, p, k);
      KidLarge(nodes, p, k);
      assert Total(s1.m) + multiset(nodes[kid].queue) == Total(s1.m);
      ghost var g2, r2, o2;
      ghost var pairs;
      after, g2, r2, o2, pairs := child[k].Update(boxes, pending, nodes, kid);
      FollowsKid(nodes, after, p, k);
      PartwayStep(s, s1, Now(after), p, v, v1, Seeing(boxes), pending, due, k, g1, r1, o1, g2, r2, o2);
      gone, rejected, overwritten := g1 + g2, r1 + r2, o1 + o2;
    }

    method UpdateSlot(k: nat, visit: bool, ghost boxes: Boxes, ghost pending: set<GameObject>, ghost due: set<Corner>,
                      ghost s: State, ghost v: View, ghost g1: multiset<GameObject>, ghost r1: multiset<GameObject>,
                      ghost o1: multiset<GameObject>, ghost nodes: Nodes, ghost p: Path)
      returns (ghost after: Nodes, ghost gone: multiset<GameObject>, ghost rejected: multiset<GameObject>,
               ghost overwritten: multiset<GameObject>)
      requires k < 8 && (visit <==> k in due)
      requires Linked(nodes) && Top in nodes && p in nodes && nodes[p] == this && Current(boxes)
      requires Partway(s, Now(nodes), p, v, Seeing(boxes), pending, due, k, g1, r1, o1) && v.boxes == boxes
      requires OnceBut(Total(s.m), pending) && p in s.ages && s.ages[p].built
      modifies nodes.Values, boxes.Keys`dirty, boxes.Keys`states
      ensures Linked(after) && Follows(nodes, after, p)
      ensures forall q <- after.Keys :: (q in nodes && after[q] == nodes[q]) || fresh(after[q])
      ensures Partway(s, Now(after), p, v, Seeing(boxes), pending, due, k + 1, gone, rejected, overwritten)
      ensures (old(Now(nodes)), old(Seeing(boxes))) == UpdatedKids(s, v, p, due, k) ==>
        (Now(after), Seeing(boxes)) == UpdatedKids(s, v, p, due, k + 1)
      ensures forall o <- boxes.Keys :: o.states == old(o.states)
      decreases Weight(region), 1
    {
      hide Linked, Partway, Now, Follows, Total, OnceBut, Updated, UpdatedKids, Small, Region;
      KidsNext(s, v, p, due, k, World(nodes), Now(nodes), Seeing(boxes));
      PartwayWorld(s, Now(nodes), p, v, Seeing(boxes), pending, due, k, g1, r1, o1);
      NowWorld(nodes);
      if visit {
        after, gone, rejected, overwritten := UpdateChild(k, boxes, pending, due, s, v, g1, r1, o1, nodes, p);
      } else {
        PartwaySkip(s, Now(nodes), p, v, Seeing(boxes), pending, due, k, g1, r1, o1);
        FollowsSelf(nodes, p);
        after, gone, rejected, overwritten := nodes, g1, r1, o1;
      }
    }

    /** The children that were active when the loop began are updated in turn. */
    method UpdateChildren(ghost boxes: Boxes, ghost pending: set<GameObject>, ghost nodes: Nodes, ghost p: Path)
      returns (ghost due: set<Corner>, ghost after: Nodes, ghost gone: multiset<GameObject>,
               ghost rejected: multiset<GameObject>, ghost overwritten: multiset<GameObject>)
      requires Good(nodes, boxes, pending + Seeing(boxes).dirty) && p in nodes && nodes[p] == this && built
      requires OnceBut(Total(Now(nodes).m), pending) && Spotless(objects, Seeing(boxes).Soiled())
      modifies nodes.Values, boxes.Keys`dirty, boxes.Keys`states
      ensures Linked(after) && Follows(nodes, after, p)
      ensures forall q <- after.Keys :: (q in nodes && after[q] == nodes[q]) || fresh(after[q])
      ensures Partway(old(Now(nodes)), Now(after), p, old(Seeing(boxes)), Seeing(boxes), pending, due, 8, gone,
                      rejected, overwritten)
      ensures due == Kids(old(Now(nodes)), p)
      ensures (Now(after), Seeing(boxes)) == UpdatedKids(old(Now(nodes)), old(Seeing(boxes)), p, due, 8)
      ensures forall o <- boxes.Keys :: o.states == old(o.states)
      decreases Weight(region), 3
    {
      hide Linked, Partway, Now, Fine, Follows, Region, Small, HasBit, Total, OnceBut, Spotless, UpdatedKids;
      ghost var s, v := Now(nodes), Seeing(boxes);
      GoodNode(nodes, boxes, pending + v.dirty, p);
      due := set k: Corner | Kid(p, k) in nodes;
      PartwayStart(s, p, v, pending, due);
      LinkedNode(nodes, p);
      assert forall k: Corner :: HasBit(active, k) <==> k in due;
      after, gone, rejected, overwritten := UpdateFlagged(boxes, pending, due, s, v, nodes, p);
    }

    /** The loop over a copy of the child mask. */
    method UpdateFlagged(ghost boxes: Boxes, ghost pending: set<GameObject>, ghost due: set<Corner>, ghost s: State,
                         ghost v: View, ghost nodes: Nodes, ghost p: Path)
      returns (ghost after: Nodes, ghost gone: multiset<GameObject>, ghost rejected: multiset<GameObject>,
               ghost overwritten: multiset<GameObject>)
      requires Linked(nodes) && Top in nodes && p in nodes && nodes[p] == this && Current(boxes) && v.boxes == boxes
      requires forall k: Corner :: HasBit(active, k) <==> k in due
      requires OnceBut(Total(s.m), pending) && p in s.ages && s.ages[p].built
      requires Partway(s, Now(nodes), p, v, Seeing(boxes), pending, due, 0, multiset{}, multiset{}, multiset{})
      requires Now(nodes) == s && Seeing(boxes) == v
      modifies nodes.Values, boxes.Keys`dirty, boxes.Keys`states
      ensures Linked(after) && Follows(nodes, after, p)
      ensures forall q <- after.Keys :: (q in nodes && after[q] == nodes[q]) || fresh(after[q])
      ensures Partway(s, Now(after), p, v, Seeing(boxes), pending, due, 8, gone, rejected, overwritten)
      ensures (Now(after), Seeing(boxes)) == UpdatedKids(s, v, p, due, 8)
      ensures forall o <- boxes.Keys :: o.states == old(o.states)
      decreases Weight(region), 2
    {
      hide Shifted, Linked, Partway, Now, Follows, HasBit, Total, OnceBut, UpdatedKids;
      KidsNone(s, v, p, due);
      FollowsSelf(nodes, p);
      after, gone, rejected, overwritten := nodes, multiset{}, multiset{}, multiset{};
      ghost var mask := active;
      ShiftedDue(mask, 0, due);
      var flags, index := active, 0;
      while flags != 0
        invariant flags == Shifted(mask, index)
        invariant Linked(after) && Follows(nodes, after, p) && Top in after
        invariant forall q <- after.Keys :: (q in nodes && after[q] == nodes[q]) || fresh(after[q])
        invariant index <= 8 && forall o <- boxes.Keys :: o.states == old(o.states)
        invariant Partway(s, Now(after), p, v, Seeing(boxes), pending, due, index, gone, rejected, overwritten)
        invariant (Now(after), Seeing(boxes)) == UpdatedKids(s, v, p, due, index)
        decreases 8 - index
      {
        ShiftedDue(mask, index, due);
        FollowsTop(nodes, after, p);
        ghost var before := after;
        after, gone, rejected, overwritten :=
          UpdateSlot(index, flags & 1 != 0, boxes, pending, due, s, v, gone, rejected, overwritten, after, p);
        FollowsTrans(nodes, before, after, p);
        FollowsTop(nodes, after, p);
        flags := flags >> 1;
        index := index + 1;
      }
      ShiftedDue(mask, index, due);
      PartwayRest(s, Now(after), p, v, Seeing(boxes), pending, due, index, gone, rejected, overwritten);
      KidsRest(s, v, p, due, index);
    }

    /** `Enqueue`: the object waits for the next tick of the top node. */
    method Enqueue(o: GameObject, ghost nodes: Nodes)
      requires Linked(nodes) && Top in nodes && nodes[Top] == this
      modifies this`queue, this`ready
      ensures Linked(nodes) && queue == old(queue) + [o] && Top in old(Now(nodes)).ages
      ensures Now(nodes) ==
        old(Now(nodes)).(ages := old(Ages(nodes))[Top := old(AgeOf(this)).(ready := false, queued := true)])
    {
      hide Linked, Stored, Ages;
      LinkedShape(nodes);
      EnqueueAge(o, nodes);
    }

    method EnqueueAge(o: GameObject, ghost nodes: Nodes)
      requires Linked(nodes) && Top in nodes && nodes[Top] == this
      modifies this`queue, this`ready
      ensures Linked(nodes) && queue == old(queue) + [o]
      ensures Ages(nodes) == old(Ages(nodes))[Top := old(AgeOf(this)).(ready := false, queued := true)]
    {
      hide Linked, Stored;
      LinkedPaths(nodes);
      ghost var ages := Ages(nodes);
      queue := queue + [o];
      ready := false;
      assert Ages(nodes) == ages[Top := AgeOf(this)];
    }

    /** The tick of one node, without the interactions. */
    method UpdateNode(ghost boxes: Boxes, ghost pending: set<GameObject>, ghost nodes: Nodes, ghost p: Path)
      returns (ghost after: Nodes, ghost gone: multiset<GameObject>, ghost rejected: multiset<GameObject>,
               ghost overwritten: multiset<GameObject>)
      requires Good(nodes, boxes, pending + Seeing(boxes).dirty) && p in nodes && nodes[p] == this
      requires p.Kid? ==> p.up in nodes && nodes[p.up].built
      requires forall o <- queue :: o in boxes
      requires Top in nodes && OnceBut(Total(Now(nodes).m) + multiset(queue), pending)
      modifies nodes.Values, boxes.Keys`dirty, boxes.Keys`states
      ensures Linked(after) && Follows(nodes, after, p)
      ensures forall q <- after.Keys :: (q in nodes && after[q] == nodes[q]) || fresh(after[q])
      ensures Ticks(old(Now(nodes)), Now(after), p, old(Seeing(boxes)), Seeing(boxes), pending, old(queue), gone,
                    rejected, overwritten)
      ensures (Now(after), Seeing(boxes)) == Updated(old(Now(nodes)), old(Seeing(boxes)), p, old(queue))
      ensures forall o <- boxes.Keys :: o.states == old(o.states)
      decreases Weight(region), 6
    {
      hide Linked, Prepared, Ticks, Now, Fine, Follows, Small, HasBit, Total, OnceBut, PreparedAs, FinishedAs, Updated;
      ghost var s, v, q := Now(nodes), Seeing(boxes), queue;
      UpdatedIs(s, v, p, q);
      GoodNode(nodes, boxes, pending + v.dirty, p);
      ghost var mid;
      var moved;
      moved, mid, gone, rejected, overwritten := Prepare(boxes, pending, nodes, p);
      FollowsTop(nodes, mid, p);
      after, gone, rejected, overwritten := Finish(moved, boxes, pending, s, v, q, gone, rejected, overwritten, mid, p);
      FollowsTrans(nodes, mid, after, p);
    }

    /** `Update`: the tick of the node and, at the top, the interactions of the triggers. */
    method Update(ghost boxes: Boxes, ghost pending: set<GameObject>, ghost nodes: Nodes, ghost p: Path)
      returns (ghost after: Nodes, ghost gone: multiset<GameObject>, ghost rejected: multiset<GameObject>,
               ghost overwritten: multiset<GameObject>, ghost pairs: seq<Meeting>)
      requires Good(nodes, boxes, pending + Seeing(boxes).dirty) && p in nodes && nodes[p] == this
      requires p.Kid? ==> p.up in nodes && nodes[p.up].built
      requires forall o <- queue :: o in boxes
      requires Top in nodes && OnceBut(Total(Now(nodes).m) + multiset(queue), pending)
      modifies nodes.Values, boxes.Keys`dirty, boxes.Keys`states
      ensures Linked(after) && Follows(nodes, after, p)
      ensures forall q <- after.Keys :: (q in nodes && after[q] == nodes[q]) || fresh(after[q])
      ensures Ticks(old(Now(nodes)), Now(after), p, old(Seeing(boxes)), Seeing(boxes), pending, old(queue), gone,
                    rejected, overwritten)
      ensures (Now(after), Seeing(boxes)) == Updated(old(Now(nodes)), old(Seeing(boxes)), p, old(queue))
      ensures queue == [] && built
      ensures p.Kid? ==> forall o <- boxes.Keys :: o.states == old(o.states)
      ensures p == Top ==>
        && Fair(pairs, 0, Members(Stored(after))) && AllAnswered(World(after), Stored(after), Live(after), Top, pairs)
        && forall t <- boxes.Keys :: Noted(t, old(t.states), t.states, pairs)
      decreases Weight(region), 7
    {
      hide Linked, Ticks, Now, Fine, Follows, Small, HasBit, Total, OnceBut, Noted, Fair, AllAnswered, Region, Updated;
      after, gone, rejected, overwritten := UpdateNode(boxes, pending, nodes, p);
      FollowsTop(nodes, after, p);
      LinkedNode(after, p);
      TickedNode(after, old(Now(nodes)), p, old(Seeing(boxes)), Seeing(boxes), pending, old(queue), gone, rejected,
                 overwritten);
      pairs := [];
      if parent == null {
        TicksMembers(after, old(Now(nodes)), p, old(Seeing(boxes)), Seeing(boxes), pending, old(queue), gone, rejected,
                     overwritten);
        pairs := Interact(boxes.Keys, after);
      }
    }

    /** `Update` from the children on. */
    method Finish(moved: seq<GameObject>, ghost boxes: Boxes, ghost pending: set<GameObject>, ghost s: State,
                  ghost v: View, ghost q: seq<GameObject>, ghost g1: multiset<GameObject>,
                  ghost r1: multiset<GameObject>, ghost o1: multiset<GameObject>, ghost nodes: Nodes, ghost p: Path)
      returns (ghost after: Nodes, ghost gone: multiset<GameObject>, ghost rejected: multiset<GameObject>,
               ghost overwritten: multiset<GameObject>)
      requires Linked(nodes) && Top in nodes && Current(boxes) && p in nodes && nodes[p] == this && v.boxes == boxes
      requires Prepared(s, Now(nodes), p, v, Seeing(boxes), pending, q, moved, g1, r1, o1)
      requires OnceBut(Total(s.m) + multiset(q), pending) && s.m.Keys == s.ages.Keys
      modifies nodes.Values, boxes.Keys`dirty, boxes.Keys`states
      ensures Linked(after) && Follows(nodes, after, p)
      ensures forall x <- after.Keys :: (x in nodes && after[x] == nodes[x]) || fresh(after[x])
      ensures Ticks(s, Now(after), p, v, Seeing(boxes), pending, q, gone, rejected, overwritten)
      ensures (Now(after), Seeing(boxes)) == FinishedAs(old(Now(nodes)), old(Seeing(boxes)), p, moved)
      ensures forall o <- boxes.Keys :: o.states == old(o.states)
      decreases Weight(region), 5
    {
      hide Linked, Partway, Prepared, Ticks, Moving, Now, Fine, Follows, Region, Small, HasBit, Total, OnceBut,
        Spotless, Calm, UpdatedKids, MovedOn;
      ghost var s4, v4 := Now(nodes), Seeing(boxes);
      ghost var n5, due, g2, r2, o2, r3;
      due, n5, g2, r2, o2 := FinishChildren(moved, boxes, pending, s, v, q, g1, r1, o1, nodes, p);
      FollowsTop(nodes, n5, p);
      ghost var s5, v5 := Now(n5), Seeing(boxes);
      after, r3 := RelocateAll(moved, v5, pending + v5.dirty, q == [] && Calm(s, boxes, p, v.Movers()), n5, p);
      FollowsAll(n5, after, p);
      FollowsTrans(nodes, n5, after, p);
      TicksBy(s, s4, s5, Now(after), p, v, v4, v5, pending, q, moved, due, g1, r1, o1, g2, r2, o2, r3);
      gone, rejected, overwritten := g1 + g2, r1 + r2 + r3, o1 + o2;
    }

    /** The children, after which the moved objects can be relocated. */
    method FinishChildren(ghost moved: seq<GameObject>, ghost boxes: Boxes, ghost pending: set<GameObject>,
                          ghost s: State, ghost v: View, ghost q: seq<GameObject>, ghost g1: multiset<GameObject>,
                          ghost r1: multiset<GameObject>, ghost o1: multiset<GameObject>, ghost nodes: Nodes,
                          ghost p: Path)
      returns (ghost due: set<Corner>, ghost after: Nodes, ghost g2: multiset<GameObject>,
               ghost r2: multiset<GameObject>,
               ghost o2: multiset<GameObject>)
      requires Linked(nodes) && Top in nodes && Current(boxes) && p in nodes && nodes[p] == this && v.boxes == boxes
      requires Prepared(s, Now(nodes), p, v, Seeing(boxes), pending, q, moved, g1, r1, o1)
      requires OnceBut(Total(s.m) + multiset(q), pending)
      modifies nodes.Values, boxes.Keys`dirty, boxes.Keys`states
      ensures Linked(after) && Follows(nodes, after, p) && Top in after
      ensures forall x <- after.Keys :: (x in nodes && after[x] == nodes[x]) || fresh(after[x])
      ensures Partway(old(Now(nodes)), Now(after), p, old(Seeing(boxes)), Seeing(boxes), pending + Elements(moved),
                      due, 8, g2, r2, o2)
      ensures Moving(Now(after), Now(after), p, Seeing(boxes), pending + Seeing(boxes).dirty, moved, Elements(moved),
                     q == [] && Calm(s, boxes, p, v.Movers()), multiset{})
      ensures due == Kids(old(Now(nodes)), p)
      ensures (Now(after), Seeing(boxes)) == UpdatedKids(old(Now(nodes)), old(Seeing(boxes)), p, due, 8)
      ensures forall o <- boxes.Keys :: o.states == old(o.states)
      decreases Weight(region), 4
    {
      hide Linked, Partway, Prepared, Moving, Now, Fine, Follows, Region, Small, HasBit, Total, OnceBut, Spotless,
        Calm, UpdatedKids, Kids;
      ghost var s4, v4 := Now(nodes), Seeing(boxes);
      NowNode(nodes, p);
      OnceWider(Total(s.m) + multiset(q), pending, pending + Elements(moved));
      PreparedOnce(s, s4, p, v, v4, pending, q, moved, g1, r1, o1, pending + Elements(moved));
      due, after, g2, r2, o2 := UpdateChildren(boxes, pending + Elements(moved), nodes, p);
      FollowsTop(nodes, after, p);
      MovingAfter(s, s4, Now(after), p, v, v4, Seeing(boxes), pending, q, moved, due, g1, r1, o1, g2, r2, o2);
    }
  }

  /** The lists share out the first `n` objects by their slots. */
  ghost predicate Sorted(lists: seq<seq<GameObject>>, objects: seq<GameObject>, slots: seq<nat>, n: nat)
    requires n <= |objects| == |slots|
  {
    |lists| == 8 && forall k: Corner :: lists[k] == Pick(objects[..n], slots[..n], k)
  }

  lemma SortedStart(objects: seq<GameObject>, slots: seq<nat>)
    requires |objects| == |slots|
    ensures Sorted([[], [], [], [], [], [], [], []], objects, slots, 0) && Rejects([], slots[..0], 8)
  {
    forall k: Corner { PickNone(objects, slots, k); }
  }

  lemma SortedStep(lists: seq<seq<GameObject>>, objects: seq<GameObject>, slots: seq<nat>, i: nat)
    requires i < |objects| == |slots| && Sorted(lists, objects, slots, i) && slots[i] <= 8
    ensures |lists| == 8
    ensures Sorted(if slots[i] < 8 then lists[slots[i] := lists[slots[i]] + [objects[i]]] else lists,
                   objects, slots, i + 1)
  {
    hide Pick;
    forall k: Corner { PickPush(objects, slots, i, k); }
  }

  lemma SortedEnd(lists: seq<seq<GameObject>>, objects: seq<GameObject>, boxes: Boxes, region: BoundingBox)
    requires Sorted(lists, objects, Slots(boxes, region, objects), |objects|)
    ensures |lists| == 8 && forall k: Corner :: lists[k] == Fitting(boxes, region, objects, k)
  {
    hide Pick, Fitting, Slots;
    var slots := Slots(boxes, region, objects);
    assert objects[..|objects|] == objects && slots[..|slots|] == slots;
    forall k: Corner { FittingIsPick(boxes, region, objects, k); }
  }

  lemma StoredMore(nodes: Nodes, kid: Path, node: OctTree)
    ensures Stored(nodes[kid := node]) == Stored(nodes)[kid := node.objects]
  {}

  lemma PutNew(m: map<Path, seq<GameObject>>, kid: Path, o: GameObject)
    requires kid !in m
    ensures Put(m, kid, o) == m[kid := [o]]
  {
    assert [] + [o] == [o];
  }

  lemma NowNode(nodes: Nodes, p: Path)
    requires Linked(nodes) && p in nodes
    ensures Top in nodes && nodes.Keys == Now(nodes).m.Keys == Now(nodes).ages.Keys
    ensures Now(nodes).m[p] == nodes[p].objects && Now(nodes).ages[p] == AgeOf(nodes[p])
  {
    hide Linked;
    LinkedShape(nodes);
  }

  /** After a tick the objects are held by their regions as far as the flat ones are. */
  lemma HeldAfterTick(nodes: Nodes, boxes: Boxes)
    requires Top in nodes && Current(boxes) && Members(Stored(nodes)) <= boxes.Keys
    requires Placed(boxes, World(nodes), Stored(nodes), {})
    ensures Held(World(nodes), Stored(nodes)) <==> FlatHeld(World(nodes), Stored(nodes))
  {
    hide Region;
    var world, m := World(nodes), Stored(nodes);
    forall q <- m.Keys, o | q != Top && o in m[q] && !o.box.IsPoint() ensures Region(world, q).Contains(o.box) {
      assert PlacedAt(boxes, world, q, m[q], {});
      assert o in Members(m);
    }
  }

  lemma TickedNode(after: Nodes, s: State, p: Path, v: View, v': View, pending: set<GameObject>, queue: seq<GameObject>,
                   gone: multiset<GameObject>, rejected: multiset<GameObject>, overwritten: multiset<GameObject>)
    requires Linked(after) && p in after && Top in after
    requires Ticks(s, Now(after), p, v, v', pending, queue, gone, rejected, overwritten)
    ensures after[p].queue == [] && after[p].built
  {
    hide Linked, Fine, Total, Calm, Outside, Grew, Tidy, AgesOutside, Rejected, Stays;
    NowNode(after, p);
  }

  lemma TicksMembers(after: Nodes, s: State, p: Path, v: View, v': View, pending: set<GameObject>,
                     queue: seq<GameObject>, gone: multiset<GameObject>, rejected: multiset<GameObject>,
                     overwritten: multiset<GameObject>)
    requires Top in after && Ticks(s, Now(after), p, v, v', pending, queue, gone, rejected, overwritten)
    ensures Members(Stored(after)) <= v.boxes.Keys
  {
    hide Total, Calm, Outside, Grew, Tidy, AgesOutside, Placed, Sound, Grown, Rejected;
    var m := Stored(after);
    forall q, o | q in m && o in m[q] ensures o in v.boxes {
      TotalHas(m, q, o);
    }
  }

  lemma MarkedSeen(boxes: Boxes, objects: seq<GameObject>, gone: multiset<GameObject>)
    requires (forall o <- gone :: o.marked && o in boxes) && forall o <- objects :: !o.marked
    ensures (forall o <- gone :: o in Seeing(boxes).marked) && forall o <- objects :: o !in Seeing(boxes).marked
  {}

  lemma ExemptSame(v: View, v': View, pending: set<GameObject>, objects: seq<GameObject>, moved: seq<GameObject>)
    requires Cleans(v, v', objects, moved)
    ensures pending + Elements(moved) + v'.dirty == pending + v.dirty
  {}

  lemma FollowsTop(nodes: Nodes, after: Nodes, p: Path)
    requires Follows(nodes, after, p)
    ensures Top in nodes && Top in after && p in after && p in nodes && World(after) == World(nodes)
      && after[p] == nodes[p]
  {
    hide SameOutside;
  }

  lemma FollowsSelf(nodes: Nodes, p: Path)
    requires Top in nodes && p in nodes
    ensures Follows(nodes, nodes, p)
  {}

  lemma FollowsAll(nodes: Nodes, after: Nodes, p: Path)
    requires Top in nodes && p in nodes && forall q <- nodes.Keys :: q in after && after[q] == nodes[q]
    ensures Follows(nodes, after, p)
  {}

  lemma FollowsKid(nodes: Nodes, after: Nodes, p: Path, k: Corner)
    requires Follows(nodes, after, Kid(p, k)) && p in nodes
    ensures Follows(nodes, after, p)
  {
    SameOutsideKid(nodes, after, p, k);
  }

  lemma KidLighter(nodes: Nodes, p: Path, k: Corner)
    requires Linked(nodes) && p in nodes && Kid(p, k) in nodes
    ensures |nodes[p].child| == 8 && nodes[p].child[k] == nodes[Kid(p, k)]
    ensures Weight(nodes[Kid(p, k)].region) < Weight(nodes[p].region)
  {
    hide HasBit, Small, Region, Octant, Linked;
    LinkedNode(nodes, p);
    LinkedNode(nodes, Kid(p, k));
    KidRegion(World(nodes), p, k);
    OctantLighter(nodes[p].region, k);
  }

  lemma FollowsTrans(a: Nodes, b: Nodes, c: Nodes, p: Path)
    requires Follows(a, b, p) && Follows(b, c, p)
    ensures Follows(a, c, p)
  {}

  lemma SoundExpiry(nodes: Nodes, boxes: Boxes, exempt: set<GameObject>, q: Path)
    requires Good(nodes, boxes, exempt) && q in nodes
    ensures nodes[q].lifespan == 0 && nodes[q].objects == [] ==> forall i: Corner :: Kid(q, i) !in nodes
  {
    hide Fine, Linked;
    GoodNode(nodes, boxes, exempt, q);
  }

  lemma ExpiredAway(nodes: Nodes, p: Path, k: Corner)
    requires Top in nodes && Kid(p, k) in nodes && nodes[Kid(p, k)].lifespan == 0 && nodes[Kid(p, k)].objects == []
    ensures Expired(Now(nodes), p, k) == State(World(nodes), Stored(nodes) - {Kid(p, k)}, Ages(nodes) - {Kid(p, k)})
  {}

  lemma ExpiredNot(nodes: Nodes, p: Path, k: Corner)
    requires Top in nodes && Kid(p, k) in nodes && nodes[Kid(p, k)].lifespan != 0
    ensures Expired(Now(nodes), p, k) == Now(nodes)
  {}

  lemma ExpiredReset(nodes: Nodes, p: Path, k: Corner)
    requires Top in nodes && Kid(p, k) in nodes && nodes[Kid(p, k)].lifespan == 0 && nodes[Kid(p, k)].objects != []
    ensures Kid(p, k) in Now(nodes).ages
    ensures Expired(Now(nodes), p, k) ==
      Now(nodes).(ages := Ages(nodes)[Kid(p, k) := AgeOf(nodes[Kid(p, k)]).(lifespan := -1)])
  {}

  lemma KidBelow(p: Path, k: Corner)
    ensures Below(p, Kid(p, k))
  {}

  lemma NowWithout(nodes: Nodes, kid: Path)
    requires Top in nodes && kid != Top
    ensures Top in nodes - {kid}
      && Now(nodes - {kid}) == State(World(nodes), Stored(nodes) - {kid}, Ages(nodes) - {kid})
  {
    assert Stored(nodes - {kid}) == Stored(nodes) - {kid};
    assert Ages(nodes - {kid}) == Ages(nodes) - {kid};
  }

  lemma TiesRemoved(nodes: Nodes, kid: Path)
    ensures Ties(nodes - {kid}) == Ties(nodes) - {kid}
  {}

  lemma LeafMask(nodes: Nodes, p: Path)
    requires Linked(nodes) && p in nodes
    ensures nodes[p].active == 0 <==> Leaf(Stored(nodes), p)
  {
    hide HasBit, Region, Small, Tied;
    LinkedNode(nodes, p);
    EmptyMask(nodes[p].active);
  }

  lemma NowWorld(nodes: Nodes)
    requires Top in nodes
    ensures Now(nodes).world == World(nodes)
  {}

  /** A node with a child is not small. */
  lemma KidLarge(nodes: Nodes, p: Path, k: Corner)
    requires Linked(nodes) && Kid(p, k) in nodes
    ensures Top in nodes && !Small(Region(World(nodes), p))
  {
    hide Small, Region, NodeTied;
  }

  lemma RetainedKept(objects: seq<GameObject>, boxes: Boxes)
    requires forall o <- objects :: o in boxes
    ensures Retained(objects) == Kept(objects, Seeing(boxes).marked)
  {
    if objects != [] { RetainedKept(objects[1..], boxes); }
  }

  lemma OutsideSelf(nodes: Nodes, p: Path)
    ensures SameOutside(nodes, nodes, p)
  {}

  /** The objects that are not marked, in their order. */
  ghost function Retained(objects: seq<GameObject>): seq<GameObject>
    reads (set o | o in objects)`marked
  {
    if objects == [] then [] else (if objects[0].marked then [] else [objects[0]]) + Retained(objects[1..])
  }

  lemma RetainedEnd(all: seq<GameObject>)
    ensures all == all[..|all|] + Retained(all[|all|..])
  {}

  lemma RetainedStep(all: seq<GameObject>, i: nat)
    requires i < |all|
    ensures Retained(all[i..]) == (if all[i].marked then [] else [all[i]]) + Retained(all[i + 1..])
    ensures var s := all[..i + 1] + Retained(all[i + 1..]);
      |s| > i && s[i] == all[i] && s[..i] == all[..i] && s[i + 1..] == Retained(all[i + 1..])
  {
    assert all[i..][1..] == all[i + 1..];
  }

  lemma {:induction false} RetainedParts(objects: seq<GameObject>) returns (gone: multiset<GameObject>)
    ensures multiset(Retained(objects)) + gone == multiset(objects)
    ensures (forall o <- gone :: o.marked) && forall o <- Retained(objects) :: !o.marked
  {
    gone := multiset{};
    if objects != [] {
      var rest := RetainedParts(objects[1..]);
      gone := if objects[0].marked then rest + multiset{objects[0]} else rest;
      assert objects == [objects[0]] + objects[1..];
    }
  }

  lemma AgesAre(nodes: Nodes)
    ensures Ages(nodes).Keys == nodes.Keys
    ensures forall q <- nodes.Keys :: AgeOf(nodes[q]) == Ages(nodes)[q]
  {}

  lemma SettledAlready(nodes: Nodes, p: Path, boxes: Boxes, exempt: set<GameObject>, movers: set<GameObject>,
                       queue: seq<GameObject>)
    requires Good(nodes, boxes, exempt) && p in nodes && queue == nodes[p].queue
    requires nodes[p].ready && nodes[p].built && queue == []
    ensures Settles(Now(nodes), Now(nodes), p, boxes, exempt, movers, queue, multiset{}, multiset{})
    ensures Follows(nodes, nodes, p)
  {
    hide Fine, Linked, Settles;
    GoodNode(nodes, boxes, exempt, p);
    SettlesNothing(Now(nodes), p, boxes, exempt, movers);
  }

  lemma SoundFlags(nodes: Nodes, p: Path)
    requires Top in nodes && p in nodes && p in Now(nodes).m && p in Now(nodes).ages
      && SoundAt(Now(nodes).m, Now(nodes).ages, p)
    ensures nodes[p].ready ==> nodes[p].built && nodes[p].queue == []
    ensures p == Top || nodes[p].queue == []
  {}

  lemma BuiltShape(boxes: Boxes, nodes: Nodes, after: Nodes, m: map<Path, seq<GameObject>>, p: Path,
                   queue: seq<GameObject>)
    requires Top in nodes && p in nodes && m.Keys == nodes.Keys && SameOutside(nodes, after, p)
    requires Stored(after) == Rebuilt(boxes, World(nodes), Joined(m, p, queue), p)
    ensures forall q <- after.Keys | !Below(p, q) :: q in nodes && after[q] == nodes[q]
  {
    hide Rebuilt, Region;
    RebuiltOutside(boxes, World(nodes), Joined(m, p, queue), p);
    FreshOnlyBelow(nodes, after, Joined(m, p, queue), Stored(after), p);
  }

  lemma BuiltNodes(ages: map<Path, Age>, nodes: Nodes, after: Nodes, p: Path)
    requires p in nodes && ages.Keys == nodes.Keys && p in after && after[p] == nodes[p]
    requires forall q <- nodes.Keys | q != p :: AgeOf(nodes[q]) == ages[q]
    requires AgeOf(nodes[p]) == ages[p].(built := true, ready := true, queued := false)
    requires forall q <- after.Keys :: (q in nodes && after[q] == nodes[q]) || AgeOf(after[q]) == NEW_AGE
    requires forall q <- after.Keys | !Below(p, q) :: q in nodes && after[q] == nodes[q]
    ensures BuiltAges(ages, Ages(after), p)
  {}

  /** No node outside the subtree is new. */
  lemma FreshOnlyBelow(nodes: Nodes, after: Nodes, m: map<Path, seq<GameObject>>, m': map<Path, seq<GameObject>>,
                       p: Path)
    requires m.Keys == nodes.Keys && m'.Keys == after.Keys && Outside(m', p) == Outside(m, p)
    requires SameOutside(nodes, after, p)
    ensures forall q <- after.Keys | !Below(p, q) :: q in nodes && after[q] == nodes[q]
  {
    OutsideKeys(m, p);
    OutsideKeys(m', p);
    forall q <- after.Keys | !Below(p, q) ensures q in nodes && after[q] == nodes[q] {
      assert q in Outside(m', p);
    }
  }

  /** A child slot that is empty or not hit. */
  lemma NotHit(nodes: Nodes, p: Path, index: Corner, probe: Probe)
    requires Linked(nodes) && p in nodes && |nodes[p].child| == 8
    requires !(nodes[p].child[index] != null && probe.Hits(nodes[p].child[index].region))
    ensures Top in nodes && !(Kid(p, index) in nodes && probe.Hits(Region(World(nodes), Kid(p, index))))
  {
    hide Region, Small, HasBit, Tied;
    LinkedNode(nodes, p);
    if Kid(p, index) in nodes { LinkedNode(nodes, Kid(p, index)); }
  }

  /** The region of the top node, which the invariant says exists. */
  ghost function LinkedWorld(nodes: Nodes, p: Path): (world: BoundingBox)
    requires Linked(nodes)
    reads nodes.Values`child, nodes.Values`active, nodes.Values`parent
    ensures Top in nodes && world == World(nodes)
  {
    World(nodes)
  }
}
