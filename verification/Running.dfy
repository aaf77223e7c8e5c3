/** Runs of the spatial index: objects enter, change shape, are marked for deletion; the top node ticks. */
module Running {
  import opened Geometry
  import opened Sequences
  import opened GameObjects
  import opened Places
  import opened Totals
  import opened Building
  import opened Aging
  import opened Risks
  import opened Ticking
  import Resting
  import Updating

  /** The index and what is known of the objects. */
  datatype Index = Index(s: State, v: View, queue: seq<GameObject>)

  datatype Step =
    | Enters(o: GameObject, box: BoundingBox, dirty: bool)
    | Reshapes(o: GameObject, box: BoundingBox)
    | Marks(o: GameObject)
    | Tick

  /** What left the index in one step: objects that were marked, rejected at the top, or overwritten. */
  datatype Loss = Loss(gone: multiset<GameObject>, rejected: multiset<GameObject>, overwritten: multiset<GameObject>) {
    function All(): multiset<GameObject> { gone + (rejected + overwritten) }
  }

  const NO_LOSS := Loss(multiset{}, multiset{}, multiset{})

  function Fresh(world: BoundingBox): Index
  {
    Index(State(world, map[Top := []], map[Top := NEW_AGE]), View(map[], {}, {}), [])
  }

  /** One step. */
  ghost predicate Next(t: Index, step: Step, t': Index, loss: Loss)
  {
    match step
    case Enters(o, box, dirty) =>
      && o !in t.v.boxes && Top in t.s.ages && loss == NO_LOSS
      && t'.queue == t.queue + [o]
      && t'.s == t.s.(ages := t.s.ages[Top := t.s.ages[Top].(ready := false, queued := true)])
      && t'.v == View(t.v.boxes[o := box], if dirty then t.v.dirty + {o} else t.v.dirty, t.v.marked)
    case Reshapes(o, box) =>
      && o in t.v.boxes && t'.s == t.s && t'.queue == t.queue && loss == NO_LOSS
      && t'.v.boxes == t.v.boxes[o := box] && t'.v.marked == t.v.marked
      && (t'.v.dirty == t.v.dirty + {o} || (t'.v.dirty == t.v.dirty && box == t.v.boxes[o]))
    case Marks(o) =>
      && o in t.v.boxes && t'.s == t.s && t'.queue == t.queue && loss == NO_LOSS
      && t'.v == t.v.(marked := t.v.marked + {o})
    case Tick =>
      && t'.queue == [] && (t'.s, t'.v) == Updating.Updated(t.s, t.v, Top, t.queue)
      && Ticks(t.s, t'.s, Top, t.v, t'.v, {}, t.queue, loss.gone, loss.rejected, loss.overwritten)
  }

  function Entering(step: Step): multiset<GameObject>
  {
    if step.Enters? then multiset{step.o} else multiset{}
  }

  function Entered(steps: seq<Step>): multiset<GameObject>
  {
    if steps == [] then multiset{} else Entered(steps[..|steps| - 1]) + Entering(steps[|steps| - 1])
  }

  function Lost(losses: seq<Loss>): multiset<GameObject>
  {
    if losses == [] then multiset{} else Lost(losses[..|losses| - 1]) + losses[|losses| - 1].All()
  }

  /** A run from an empty index. */
  ghost predicate Run(world: BoundingBox, steps: seq<Step>, losses: seq<Loss>, ts: seq<Index>)
  {
    && |ts| == |steps| + 1 && |losses| == |steps|
    && ts[0] == Fresh(world)
    && forall i | 0 <= i < |steps| :: Next(ts[i], steps[i], ts[i + 1], losses[i])
  }

  /** What holds in every state of a run: the tree is sound; every object that entered is stored once, waiting once, or
      was lost; and below the top only an object that moved since the last tick may be out of place. */
  ghost predicate Kept(t: Index, entered: multiset<GameObject>, lost: multiset<GameObject>)
  {
    && Fine(t.s, t.v.boxes, t.v.dirty)
    && Top in t.s.m && Top in t.s.ages
    && (t.s.ages[Top].queued <==> t.queue != [])
    && (forall o <- t.queue :: o in t.v.boxes)
    && Total(t.s.m) + multiset(t.queue) + lost == entered
    && Once(entered) && (forall o <- entered :: o in t.v.boxes)
  }

  lemma FreshKept(world: BoundingBox)
    requires world.Proper()
    ensures Kept(Fresh(world), multiset{}, multiset{})
  {
    var t := Fresh(world);
    TotalSingle<Path, GameObject>(Top, []);
    assert SoundAt(t.s.m, t.s.ages, Top);
  }

  lemma EntersKept(t: Index, t': Index, o: GameObject, box: BoundingBox, dirty: bool, entered: multiset<GameObject>,
                   lost: multiset<GameObject>)
    requires Kept(t, entered, lost) && Next(t, Enters(o, box, dirty), t', NO_LOSS)
    ensures Kept(t', entered + multiset{o}, lost)
  {
    hide Ticks, Total, Grown, Region, Small, Placed, Sound;
    assert o !in entered && o !in Total(t.s.m);
    EntersPlaced(t.s.m, t.s.world, t.v.boxes, t.v.dirty, o, box, t'.v.dirty);
    EntersSound(t.s.m, t.s.ages);
    QueueMore(Total(t.s.m), t.queue, lost, entered, o);
    OnceMore(entered, o);
    hide Once, OnceBut;
    KnownMore(t.v.boxes, entered, Total(t.s.m), o, box);
  }

  lemma KnownMore(boxes: Boxes, entered: multiset<GameObject>, stored: multiset<GameObject>, o: GameObject,
                  box: BoundingBox)
    requires stored <= entered && forall x <- entered :: x in boxes
    ensures forall x <- entered + multiset{o} :: x in boxes[o := box]
    ensures forall x <- stored :: x in boxes[o := box]
  {}

  lemma OnceMore(entered: multiset<GameObject>, o: GameObject)
    requires Once(entered) && o !in entered
    ensures Once(entered + multiset{o})
  {}

  lemma EntersPlaced(m: map<Path, seq<GameObject>>, world: BoundingBox, boxes: Boxes, exempt: set<GameObject>,
                     o: GameObject, box: BoundingBox, exempt': set<GameObject>)
    requires Placed(boxes, world, m, exempt) && o !in Total(m) && exempt <= exempt'
      && forall x <- Total(m) :: x in boxes
    ensures Placed(boxes[o := box], world, m, exempt')
  {
    hide Total, Region;
    NowhereIn(m, o);
    forall q <- m.Keys | q != Top ensures PlacedAt(boxes[o := box], world, q, m[q], exempt') {
      assert PlacedAt(boxes, world, q, m[q], exempt);
      forall x <- m[q] ensures x in boxes && BoxOf(boxes[o := box], x) == BoxOf(boxes, x) { TotalHas(m, q, x); }
    }
  }

  lemma EntersSound(m: map<Path, seq<GameObject>>, ages: map<Path, Age>)
    requires Sound(m, ages) && Top in m
    ensures Sound(m, ages[Top := ages[Top].(ready := false, queued := true)])
  {
    forall q <- m.Keys ensures SoundAt(m, ages[Top := ages[Top].(ready := false, queued := true)], q) {
      assert SoundAt(m, ages, q);
    }
  }

  lemma QueueMore(total: multiset<GameObject>, queue: seq<GameObject>, lost: multiset<GameObject>,
                  entered: multiset<GameObject>, o: GameObject)
    requires total + multiset(queue) + lost == entered
    ensures total + multiset(queue + [o]) + lost == entered + multiset{o}
  {
    assert multiset(queue + [o]) == multiset(queue) + multiset{o};
  }

  lemma ReshapesKept(t: Index, t': Index, o: GameObject, box: BoundingBox, entered: multiset<GameObject>,
                     lost: multiset<GameObject>)
    requires Kept(t, entered, lost) && Next(t, Reshapes(o, box), t', NO_LOSS)
    ensures Kept(t', entered, lost)
  {
    hide Total, Grown, Region, Small, Sound;
    forall q <- t.s.m.Keys | q != Top ensures PlacedAt(t'.v.boxes, t.s.world, q, t.s.m[q], t'.v.dirty) {
      assert PlacedAt(t.v.boxes, t.s.world, q, t.s.m[q], t.v.dirty);
    }
  }

  lemma TickKept(t: Index, t': Index, entered: multiset<GameObject>, lost: multiset<GameObject>,
                 loss: Loss)
    requires Kept(t, entered, lost) && Next(t, Tick, t', loss)
    ensures Kept(t', entered, lost + loss.All())
  {
    hide Total, Grown, Placed, Small, Sound, Region, Calm, Grew, Tidy, AgesOutside, Rejected, Once;
    assert {} + t'.v.dirty == t'.v.dirty;
    LossBooked(Total(t'.s.m), loss.gone, loss.rejected + loss.overwritten, Total(t.s.m), multiset(t.queue), lost,
               entered);
    assert multiset(t'.queue) == multiset{};
  }

  lemma LossBooked(after: multiset<GameObject>, gone: multiset<GameObject>, other: multiset<GameObject>,
                   before: multiset<GameObject>, queue: multiset<GameObject>, lost: multiset<GameObject>,
                   entered: multiset<GameObject>)
    requires after + gone + other == before + queue && before + queue + lost == entered
    ensures after + multiset{} + (lost + (gone + other)) == entered
  {
    calc {
      after + multiset{} + (lost + (gone + other));
      (after + gone + other) + lost;
      entered;
    }
  }

  lemma StepKept(t: Index, step: Step, t': Index, loss: Loss, entered: multiset<GameObject>, lost: multiset<GameObject>)
    requires Kept(t, entered, lost) && Next(t, step, t', loss)
    ensures Kept(t', entered + Entering(step), lost + loss.All())
  {
    hide Kept;
    assert lost + NO_LOSS.All() == lost && entered + multiset{} == entered;
    match step
    case Enters(o, box, dirty) => EntersKept(t, t', o, box, dirty, entered, lost);
    case Reshapes(o, box) => ReshapesKept(t, t', o, box, entered, lost);
    case Marks(_) => MarksKept(t, t', entered, lost);
    case Tick => TickKept(t, t', entered, lost, loss);
  }

  lemma MarksKept(t: Index, t': Index, entered: multiset<GameObject>, lost: multiset<GameObject>)
    requires Kept(t, entered, lost) && t'.s == t.s && t'.queue == t.queue
    requires t'.v.boxes == t.v.boxes && t'.v.dirty == t.v.dirty
    ensures Kept(t', entered, lost)
  {}

  lemma Books(steps: seq<Step>, losses: seq<Loss>, i: nat)
    requires i <= |steps| == |losses|
    ensures i == 0 ==> Entered(steps[..i]) == multiset{} && Lost(losses[..i]) == multiset{}
    ensures i > 0 ==> Entered(steps[..i]) == Entered(steps[..i - 1]) + Entering(steps[i - 1])
    ensures i > 0 ==> Lost(losses[..i]) == Lost(losses[..i - 1]) + losses[i - 1].All()
  {
    if i > 0 {
      assert steps[..i][..i - 1] == steps[..i - 1] && losses[..i][..i - 1] == losses[..i - 1];
    }
  }

  /** In every state of every run the index is sound and its books balance. */
  lemma {:induction false} RunKept(world: BoundingBox, steps: seq<Step>, losses: seq<Loss>, ts: seq<Index>, i: nat)
    requires world.Proper() && Run(world, steps, losses, ts) && i < |ts|
    ensures Kept(ts[i], Entered(steps[..i]), Lost(losses[..i]))
  {
    hide Kept, Next, Entered, Lost, Entering;
    Books(steps, losses, i);
    if i == 0 {
      FreshKept(world);
    } else {
      RunKept(world, steps, losses, ts, i - 1);
      StepKept(ts[i - 1], steps[i - 1], ts[i], losses[i - 1], Entered(steps[..i - 1]), Lost(losses[..i - 1]));
    }
  }

  /** After every tick of every run nothing stored is dirty or marked, and every stored object that is not flat lies
      inside the region of its node; what was neither dirty nor marked is still in its node. What the tick lost was
      marked, lay outside the world or was overwritten, and in a calm tick it was marked. */
  lemma AfterTick(world: BoundingBox, steps: seq<Step>, losses: seq<Loss>, ts: seq<Index>, i: nat)
    requires world.Proper() && Run(world, steps, losses, ts) && i < |steps| && steps[i] == Tick
    ensures var t := ts[i + 1];
      && (forall q <- t.s.m.Keys :: forall o <- t.s.m[q] :: o !in t.v.dirty && o !in t.v.marked)
      && Placed(t.v.boxes, world, t.s.m, {})
    ensures Stays(ts[i].s, ts[i + 1].s, ts[i].v.Soiled())
    ensures forall o <- losses[i].gone :: o in ts[i].v.marked
    ensures forall o <- losses[i].rejected :: !world.Contains(BoxOf(ts[i].v.boxes, o))
    ensures ts[i].queue == [] && Calm(ts[i].s, ts[i].v.boxes, Top, ts[i].v.Movers()) ==>
      losses[i].rejected == losses[i].overwritten == multiset{}
  {
    hide Kept, Grown, Small, Sound, Region, Calm, Grew, AgesOutside, Once, Total, Tame, Flows, AllBuilt;
    RunWorld(world, steps, losses, ts, i);
    var t, t' := ts[i], ts[i + 1];
    assert Next(t, steps[i], t', losses[i]);
    hide Tidy, Placed;
    assert {} + t'.v.dirty == t'.v.dirty;
    TickedPlaced(t'.s, t'.v.boxes, t'.v.dirty, t'.v.Soiled());
  }

  /** In every run it takes three objects at risk or in the queue for a tick to overwrite one. */
  lemma AfterTameTick(world: BoundingBox, steps: seq<Step>, losses: seq<Loss>, ts: seq<Index>, i: nat)
    requires world.Proper() && Run(world, steps, losses, ts) && i < |steps| && steps[i] == Tick
    requires |Risk(ts[i].s, ts[i].v.boxes, Top, ts[i].v.Movers()) + Elements(ts[i].queue)| < 3
    ensures losses[i].overwritten == multiset{}
  {
    RunKept(world, steps, losses, ts, i);
    var t, entered := ts[i], Entered(steps[..i]);
    hide Run, Fine, Grown, Risk, Total, OnceBut, Entered, Lost, Ticks;
    assert Next(t, steps[i], ts[i + 1], losses[i]) by { StepOf(world, steps, losses, ts, i); }
    assert Total(t.s.m) + multiset(t.queue) <= entered;
    OnceLess(Total(t.s.m) + multiset(t.queue), entered, {});
    TicksTame(t.s, ts[i + 1].s, t.v, ts[i + 1].v, t.queue, losses[i].gone, losses[i].rejected, losses[i].overwritten);
  }

  lemma StepOf(world: BoundingBox, steps: seq<Step>, losses: seq<Loss>, ts: seq<Index>, i: nat)
    requires Run(world, steps, losses, ts) && i < |steps|
    ensures i + 1 < |ts| && |losses| == |steps| && Next(ts[i], steps[i], ts[i + 1], losses[i])
  {
    hide Next;
  }

  lemma TicksTame(s: State, s': State, v: View, v': View, queue: seq<GameObject>, gone: multiset<GameObject>,
                  rejected: multiset<GameObject>, overwritten: multiset<GameObject>)
    requires Ticks(s, s', Top, v, v', {}, queue, gone, rejected, overwritten)
    ensures Tame(s, v.boxes, Top, v.Movers(), queue, overwritten)
  {
    hide Fine, Calm, Grew, Tidy, AgesOutside, Rejected, Total, Outside, Stays, Flows, Tame, AllBuilt;
  }

  /** An index that at most two objects ever entered overwrites none, whatever is done to them. */
  lemma TwoNeverLost(world: BoundingBox, steps: seq<Step>, losses: seq<Loss>, ts: seq<Index>, i: nat)
    requires world.Proper() && Run(world, steps, losses, ts) && i < |steps| && steps[i] == Tick
    requires |Entered(steps[..i])| < 3
    ensures losses[i].overwritten == multiset{}
  {
    RunKept(world, steps, losses, ts, i);
    var t, entered := ts[i], Entered(steps[..i]);
    hide Run, Fine, Grown, Total, OnceBut, Entered, Lost, Next, Region, BoxOf, Below;
    var all := Risk(t.s, t.v.boxes, Top, t.v.Movers()) + Elements(t.queue);
    forall o <- all ensures o in entered {
      if o !in t.queue {
        var q :| q in t.s.m && o in t.s.m[q];
        TotalHas(t.s.m, q, o);
      }
      assert o in Total(t.s.m) + multiset(t.queue) + Lost(losses[..i]);
    }
    SetInBag(all, entered);
    AfterTameTick(world, steps, losses, ts, i);
  }

  /** A tick of a run with nothing waiting, nothing to move and every node built erases the marked objects, deletes
      exactly the empty nodes whose lifespan had run out and ages the others. */
  lemma AfterQuietTick(world: BoundingBox, steps: seq<Step>, losses: seq<Loss>, ts: seq<Index>, i: nat)
    requires world.Proper() && Run(world, steps, losses, ts) && i < |steps| && steps[i] == Tick
    requires ts[i].queue == [] && ts[i].v.Movers() == {} && AllBuilt(ts[i].s, Top)
    ensures ts[i + 1].s == Resting.Rested(ts[i].s, ts[i].v.marked, Top) && ts[i + 1].v == ts[i].v
  {
    RunKept(world, steps, losses, ts, i);
    assert Next(ts[i], steps[i], ts[i + 1], losses[i]);
    hide Run, Ticks, Total, Once, Placed, Grown, Sound, AllBuilt, Resting.Rested, Resting.Calmed, Updating.Updated;
    Resting.CalmedBy(ts[i].s, Top);
    FineParts(ts[i].s, ts[i].v.boxes, ts[i].v.dirty);
    assert ts[i].s.m.Keys == ts[i].s.ages.Keys by { SoundKeys(ts[i].s); }
    Resting.RestedIs(ts[i].s, ts[i].v, Top);
  }

  lemma SoundKeys(s: State)
    requires Sound(s.m, s.ages)
    ensures s.m.Keys == s.ages.Keys
  {}

  lemma {:induction false} SetInBag<T>(a: set<T>, b: multiset<T>)
    requires forall x <- a :: x in b
    ensures |a| <= |b|
    decreases a
  {
    if a != {} {
      var x :| x in a;
      SetInBag(a - {x}, b - multiset{x});
    }
  }

  lemma {:induction false} RunWorld(world: BoundingBox, steps: seq<Step>, losses: seq<Loss>, ts: seq<Index>, i: nat)
    requires Run(world, steps, losses, ts) && i < |ts|
    ensures ts[i].s.world == world
  {
    hide Fine, Calm, Grew, Tidy, AgesOutside, Rejected, Total;
    if i > 0 {
      RunWorld(world, steps, losses, ts, i - 1);
      assert Next(ts[i - 1], steps[i - 1], ts[i], losses[i - 1]);
    }
  }
}
