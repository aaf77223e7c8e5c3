/** The delayed tasks of scheduler.cpp: callers, one worker and a clock, in atomic steps under the lock. */
module Schedulers {
  import opened Options
  import opened Sequences

  /** A task; the serial number stands for its address, which is never the same for two tasks. */
  datatype Task = Task(serial: nat, id: nat, due: nat)

  /** Where the worker is: at the head of its loop, waiting (with the execution point it waits for, if any), running a
      task, or done. */
  datatype Phase = AtHead | Waiting(until: Option<nat>) | Running(task: Task) | Ended

  datatype State = State(tasks: set<Task>, ids: set<nat>, counters: map<nat, nat>, created: nat, stopped: bool,
                         now: nat, phase: Phase)

  datatype Step =
    | Add(thread: nat, delay: nat)
    | Cancel(id: nat)
    | Stop                      // `Shutdown` sets the flag
    | Drain                     // and empties the queue
    | Advance(time: nat)        // the clock
    | Look                      // the worker at the head of its loop
    | Wake                      // a notification, or none
    | TimeOut(task: Task)       // the wait ran out; the task is on top of the queue
    | Finish

  const ID_LIMIT: nat := 0x1_0000_0000

  /** The next id of a thread: a 32-bit counter that skips 0. */
  function Bump(counter: nat): (id: nat)
    ensures id > 0
  {
    var next := (counter + 1) % ID_LIMIT;
    if next == 0 then 1 else next
  }

  function Counter(s: State, thread: nat): nat
  {
    if thread in s.counters then s.counters[thread] else 0
  }

  /** The task that `AddTask` creates. */
  function Created(s: State, thread: nat, delay: nat): Task
  {
    Task(s.created, Bump(Counter(s, thread)), s.now + delay)
  }

  /** On top of the queue: no task is due earlier. */
  predicate OnTop(tasks: set<Task>, task: Task)
  {
    task in tasks && forall t <- tasks :: task.due <= t.due
  }

  predicate Next(s: State, step: Step, s': State)
  {
    match step
    case Add(thread, delay) =>
      if s.stopped then s' == s
      else
        var task := Created(s, thread, delay);
        s' == s.(tasks := s.tasks + {task}, ids := s.ids + {task.id}, counters := s.counters[thread := task.id],
                 created := s.created + 1)
    case Cancel(id) => s' == s.(ids := if id == 0 then s.ids else s.ids - {id})
    case Stop => s' == s.(stopped := true)
    case Drain => s.stopped && s' == s.(tasks := {}, ids := {})
    case Advance(time) => s' == s.(now := s.now + time)
    case Look =>
      && s.phase == AtHead && s'.(phase := s.phase) == s
      && (if s.stopped then s'.phase == Ended
          else if s.tasks == {} then s'.phase == Waiting(None)
          else exists t <- s.tasks :: OnTop(s.tasks, t) && s'.phase == Waiting(Some(t.due)))
    case Wake => s.phase.Waiting? && s' == s.(phase := AtHead)
    case TimeOut(task) =>
      && s.phase.Waiting? && s.phase.until.Some? && s.phase.until.value <= s.now && OnTop(s.tasks, task)
      && s' == (if task.id in s.ids then s.(tasks := s.tasks - {task}, ids := s.ids - {task.id}, phase := Running(task))
                else s.(tasks := s.tasks - {task}, phase := AtHead))
    case Finish => s.phase.Running? && s' == s.(phase := AtHead)
  }

  // ----- no task runs early

  /** A worker that waits for an execution point has a task due by then, unless the queue was drained. */
  predicate Expects(s: State)
  {
    s.phase.Waiting? && s.phase.until.Some? && !s.stopped ==> exists t <- s.tasks :: t.due <= s.phase.until.value
  }

  lemma ExpectsKept(s: State, step: Step, s': State)
    requires Expects(s) && Next(s, step, s')
    ensures Expects(s')
  {
    if s'.phase.Waiting? && s'.phase.until.Some? && !s'.stopped && !step.Look? {
      var t :| t in s.tasks && t.due <= s.phase.until.value;
      assert t in s'.tasks;
    }
  }

  /** What the worker takes from the queue is due, also when it was added while the worker waited for a later one, and
      also after `Shutdown` began. */
  predicate Punctual(s: State)
  {
    s.phase.Waiting? && s.phase.until.Some? ==> s.tasks == {} || exists t <- s.tasks :: t.due <= s.phase.until.value
  }

  lemma PunctualKept(s: State, step: Step, s': State)
    requires Punctual(s) && Next(s, step, s')
    requires step.Add? && s.tasks == {} && s.phase.Waiting? && s.phase.until.Some? ==> s.stopped
    ensures Punctual(s')
  {
    if s'.phase.Waiting? && s'.phase.until.Some? && !step.Look? && s.tasks != {} {
      var t :| t in s.tasks && t.due <= s.phase.until.value;
      assert step.Drain? || t in s'.tasks;
    }
  }

  // ----- traces

  function Start(): State
  {
    State({}, {}, map[], 0, false, 0, AtHead)
  }

  ghost predicate Trace(steps: seq<Step>, ss: seq<State>)
  {
    |ss| == |steps| + 1 && ss[0] == Start() && forall i | 0 <= i < |steps| :: Next(ss[i], steps[i], ss[i + 1])
  }

  lemma {:induction false} TracePunctual(steps: seq<Step>, ss: seq<State>, i: nat)
    requires Trace(steps, ss) && i < |ss|
    ensures Expects(ss[i]) && Punctual(ss[i])
  {
    hide Next, Expects, Punctual;
    if i > 0 {
      TracePunctual(steps, ss, i - 1);
      ExpectsKept(ss[i - 1], steps[i - 1], ss[i]);
      WaitsStopped(ss[i - 1]);
      PunctualKept(ss[i - 1], steps[i - 1], ss[i]);
    } else {
      StartPunctual();
    }
  }

  lemma StartPunctual()
    ensures Expects(Start()) && Punctual(Start())
  {}

  lemma WaitsStopped(s: State)
    requires Expects(s)
    ensures s.tasks == {} && s.phase.Waiting? && s.phase.until.Some? ==> s.stopped
  {}

  /** In every interleaving of adds, cancels, clock ticks, shutdown and worker steps, no task is taken, and none runs,
      before its execution point. */
  lemma NeverEarly(steps: seq<Step>, ss: seq<State>, i: nat)
    requires Trace(steps, ss) && i < |steps| && steps[i].TimeOut?
    ensures steps[i].task.due <= ss[i].now
    ensures ss[i + 1].phase.Running? ==> ss[i + 1].phase.task == steps[i].task
  {
    TracePunctual(steps, ss, i);
    assert Next(ss[i], steps[i], ss[i + 1]);
    var t :| t in ss[i].tasks && t.due <= ss[i].phase.until.value;
  }

  /** Every task in the queue was added in some step of the run, and is due the delay of that step after its time. */
  lemma {:induction false} TaskAdded(steps: seq<Step>, ss: seq<State>, i: nat, task: Task) returns (k: nat)
    requires Trace(steps, ss) && i < |ss| && task in ss[i].tasks
    ensures k < i && steps[k].Add? && !ss[k].stopped && task !in ss[k].tasks && task in ss[k + 1].tasks
    ensures task.due == ss[k].now + steps[k].delay
  {
    assert Next(ss[i - 1], steps[i - 1], ss[i]);
    if task in ss[i - 1].tasks {
      k := TaskAdded(steps, ss, i - 1, task);
    } else {
      k := i - 1;
    }
  }

  /** A task is taken, and so runs, no earlier than its delay after the step that added it. */
  lemma DelayPassed(steps: seq<Step>, ss: seq<State>, j: nat) returns (i: nat)
    requires Trace(steps, ss) && j < |steps| && steps[j].TimeOut?
    ensures i < j && steps[i].Add? && steps[j].task !in ss[i].tasks && steps[j].task in ss[i + 1].tasks
    ensures ss[j].now >= ss[i].now + steps[i].delay
  {
    assert Next(ss[j], steps[j], ss[j + 1]);
    NeverEarly(steps, ss, j);
    i := TaskAdded(steps, ss, j, steps[j].task);
  }

  /** The worker ends only after shutdown began, and then takes no task any more. */
  lemma {:induction false} EndedForGood(steps: seq<Step>, ss: seq<State>, i: nat, j: nat)
    requires Trace(steps, ss) && i <= j < |ss| && ss[i].phase.Ended?
    ensures ss[j].phase.Ended? && ss[i].stopped && ss[j].stopped
    ensures forall k | i <= k < j :: !steps[k].TimeOut? && !steps[k].Look?
    decreases i + j
  {
    if i < j {
      EndedForGood(steps, ss, i, j - 1);
      assert Next(ss[j - 1], steps[j - 1], ss[j]);
    } else if i > 0 {
      assert Next(ss[i - 1], steps[i - 1], ss[i]);
      if ss[i - 1].phase.Ended? { EndedForGood(steps, ss, i - 1, i - 1); }
    }
  }

  /** After shutdown began the worker takes at most one more task: the one it was waiting for. */
  lemma OneAfterStop(steps: seq<Step>, ss: seq<State>, i: nat, j: nat)
    requires Trace(steps, ss) && i < j < |steps| && ss[i].stopped && steps[i].TimeOut?
    ensures !steps[j].TimeOut?
  {
    NoWait(steps, ss, i + 1, j);
    assert Next(ss[i], steps[i], ss[i + 1]) && Next(ss[j], steps[j], ss[j + 1]);
  }

  /** A worker that is not waiting when shutdown has begun does not wait again. */
  lemma {:induction false} NoWait(steps: seq<Step>, ss: seq<State>, i: nat, j: nat)
    requires Trace(steps, ss) && i <= j < |ss| && ss[i].stopped && !ss[i].phase.Waiting?
    ensures ss[j].stopped && !ss[j].phase.Waiting?
    decreases j - i
  {
    if i < j {
      NoWait(steps, ss, i, j - 1);
      assert Next(ss[j - 1], steps[j - 1], ss[j]);
    }
  }

  /** The worker reads the top of an empty queue: its wait ran out and there is no task. */
  predicate Stuck(s: State)
  {
    s.phase.Waiting? && s.phase.until.Some? && s.phase.until.value <= s.now && s.tasks == {}
  }

  /** The queue was drained after the worker last looked at it. */
  predicate DrainedSince(steps: seq<Step>)
  {
    steps != [] &&
    var n := |steps| - 1;
    match steps[n]
    case Drain => true
    case Look => false
    case _ => DrainedSince(steps[..n])
  }

  /** A drained queue is empty and stays so; a worker that waits for an execution point has an empty queue only then. */
  predicate Drained(s: State, drained: bool)
  {
    && (drained ==> s.stopped && s.tasks == {})
    && (s.phase.Waiting? && s.phase.until.Some? ==> (s.tasks == {} <==> drained))
  }

  lemma DrainedStep(s: State, step: Step, s': State, drained: bool)
    requires Drained(s, drained) && Next(s, step, s')
    ensures Drained(s', step.Drain? || (drained && !step.Look?))
  {}

  lemma {:induction false} DrainedEmpty(steps: seq<Step>, ss: seq<State>, i: nat)
    requires Trace(steps, ss) && i < |ss|
    ensures Drained(ss[i], DrainedSince(steps[..i]))
  {
    if i > 0 {
      DrainedEmpty(steps, ss, i - 1);
      assert steps[..i][..i - 1] == steps[..i - 1];
      DrainedStep(ss[i - 1], steps[i - 1], ss[i], DrainedSince(steps[..i - 1]));
      hide Next, Drained;
    }
  }

  /** In every run the worker gets stuck exactly when the time it waits for comes and `Shutdown` drained the queue after
      the worker last looked. */
  lemma StuckIff(steps: seq<Step>, ss: seq<State>, i: nat)
    requires Trace(steps, ss) && i < |ss|
    ensures Stuck(ss[i]) <==>
      && ss[i].phase.Waiting? && ss[i].phase.until.Some? && ss[i].phase.until.value <= ss[i].now
      && DrainedSince(steps[..i])
  {
    DrainedEmpty(steps, ss, i);
  }

  /** That happens only after `Shutdown` began. */
  lemma StuckOnlyStopped(steps: seq<Step>, ss: seq<State>, i: nat)
    requires Trace(steps, ss) && i < |ss| && Stuck(ss[i])
    ensures ss[i].stopped
  {
    StuckIff(steps, ss, i);
    DrainedEmpty(steps, ss, i);
  }

  /** And then it can happen: a task is added, the worker waits for it, `Shutdown` drains the queue, the time comes. */
  lemma ShutdownSticks() returns (steps: seq<Step>, ss: seq<State>)
    ensures Trace(steps, ss) && Stuck(ss[|steps|])
  {
    steps := [Add(0, 5), Look, Stop, Drain, Advance(5)];
    var t := Task(0, 1, 5);
    var s1 := State({t}, {1}, map[0 := 1], 1, false, 0, AtHead);
    var s2 := s1.(phase := Waiting(Some(5)));
    var s3 := s2.(stopped := true);
    var s4 := s3.(tasks := {}, ids := {});
    ss := [Start(), s1, s2, s3, s4, s4.(now := 5)];
    assert Created(Start(), 0, 5) == t;
    assert {} + {t} == {t} && {} + {1} == {1} && map[][0 := 1] == map[0 := 1];
    assert OnTop(s1.tasks, t);
  }

  // ----- every task is accounted for

  /** What became of the tasks: all that were added, cancelled while waiting in the queue, taken to run in this order,
      dropped without running. */
  datatype Fate = Fate(added: set<Task>, cancelled: set<Task>, ran: seq<Task>, dropped: set<Task>)

  function Cancels(s: State, id: nat): set<Task>
  {
    if id == 0 || id !in s.ids then {} else set t | t in s.tasks && t.id == id
  }

  function Recorded(s: State, step: Step, f: Fate): Fate
  {
    match step
    case Add(thread, delay) => if s.stopped then f else f.(added := f.added + {Created(s, thread, delay)})
    case Cancel(id) => f.(cancelled := f.cancelled + Cancels(s, id))
    case TimeOut(task) =>
      if task.id in s.ids then f.(ran := f.ran + [task]) else f.(dropped := f.dropped + {task})
    case _ => f
  }

  function Ids(tasks: set<Task>): set<nat>
  {
    set t | t in tasks :: t.id
  }

  /** The id of a new task is not that of a waiting one. */
  predicate FreshId(s: State, step: Step)
  {
    step.Add? && !s.stopped ==> Created(s, step.thread, step.delay).id !in Ids(s.tasks)
  }

  /** Each added task is waiting, ran once or was dropped; only cancelled tasks are dropped and none of them ran; the
      registered ids are those of the waiting tasks that were not cancelled. */
  ghost predicate Accounted(s: State, f: Fate)
  {
    && (forall t <- f.added :: t.serial < s.created)
    && f.added == s.tasks + Elements(f.ran) + f.dropped
    && s.tasks !! Elements(f.ran) && s.tasks !! f.dropped && Elements(f.ran) !! f.dropped
    && (forall i, j | 0 <= i < j < |f.ran| :: f.ran[i] != f.ran[j])
    && f.dropped <= f.cancelled <= f.added && f.cancelled !! Elements(f.ran)
    && (forall t <- s.tasks, u <- s.tasks | t.id == u.id :: t == u)
    && s.ids == Ids(s.tasks - f.cancelled)
    && (forall t <- s.tasks :: t.id > 0)
  }

  lemma AddAccounted(s: State, thread: nat, delay: nat, s': State, f: Fate)
    requires Accounted(s, f) && Next(s, Add(thread, delay), s') && FreshId(s, Add(thread, delay))
    ensures Accounted(s', Recorded(s, Add(thread, delay), f))
  {
    if !s.stopped {
      var task := Created(s, thread, delay);
      assert task !in f.added;
      assert s'.tasks - f.cancelled == (s.tasks - f.cancelled) + {task};
      assert Ids(s'.tasks - f.cancelled) == Ids(s.tasks - f.cancelled) + {task.id};
      forall t <- s'.tasks, u <- s'.tasks | t.id == u.id ensures t == u {
        assert t in s.tasks ==> t.id in Ids(s.tasks);
        assert u in s.tasks ==> u.id in Ids(s.tasks);
      }
    }
  }

  lemma CancelAccounted(s: State, id: nat, s': State, f: Fate)
    requires Accounted(s, f) && Next(s, Cancel(id), s')
    ensures Accounted(s', Recorded(s, Cancel(id), f))
  {
    var c := Cancels(s, id);
    assert s.tasks - (f.cancelled + c) == (s.tasks - f.cancelled) - c;
    assert s'.ids == Ids(s.tasks - (f.cancelled + c));
  }

  lemma TimeOutAccounted(s: State, task: Task, s': State, f: Fate)
    requires Accounted(s, f) && Next(s, TimeOut(task), s')
    ensures Accounted(s', Recorded(s, TimeOut(task), f))
    ensures task.id in s.ids <==> task !in f.cancelled
  {
    assert task.id in s.ids <==> task !in f.cancelled;
    assert s'.tasks - f.cancelled == (s.tasks - f.cancelled) - {task};
    assert s'.ids == Ids(s'.tasks - f.cancelled);
    assert Elements(f.ran + [task]) == Elements(f.ran) + {task};
  }

  lemma StepAccounted(s: State, step: Step, s': State, f: Fate)
    requires Accounted(s, f) && Next(s, step, s') && FreshId(s, step) && !step.Drain?
    ensures Accounted(s', Recorded(s, step, f))
  {
    match step
    case Add(thread, delay) => AddAccounted(s, thread, delay, s', f);
    case Cancel(id) => CancelAccounted(s, id, s', f);
    case TimeOut(task) => TimeOutAccounted(s, task, s', f);
    case _ =>
  }

  function Fates(steps: seq<Step>, ss: seq<State>): Fate
    requires |ss| >= |steps|
  {
    if steps == [] then Fate({}, {}, [], {})
    else
      var n := |steps| - 1;
      Recorded(ss[n], steps[n], Fates(steps[..n], ss))
  }

  /** In every run in which new ids are fresh and the queue is not drained, all tasks are accounted for. */
  lemma {:induction false} AllAccounted(steps: seq<Step>, ss: seq<State>, i: nat)
    requires Trace(steps, ss) && i < |ss|
    requires forall k | 0 <= k < i :: FreshId(ss[k], steps[k]) && !steps[k].Drain?
    ensures Accounted(ss[i], Fates(steps[..i], ss))
  {
    hide Next, FreshId, Accounted;
    if i == 0 {
      StartAccounted();
    } else {
      AllAccounted(steps, ss, i - 1);
      assert steps[..i][..i - 1] == steps[..i - 1];
      StepAccounted(ss[i - 1], steps[i - 1], ss[i], Fates(steps[..i - 1], ss));
    }
  }

  lemma StartAccounted()
    ensures Accounted(Start(), Fate({}, {}, [], {}))
  {}

  // ----- exactly which tasks run, fresh ids or not

  /** Of the adds, cancels and taken tasks that concern an id, the last one is an add. */
  predicate LastAdded(steps: seq<Step>, ss: seq<State>, id: nat)
    requires |ss| >= |steps|
  {
    steps != [] &&
    var n := |steps| - 1;
    var before := LastAdded(steps[..n], ss, id);
    match steps[n]
    case Add(thread, delay) => before || (!ss[n].stopped && Created(ss[n], thread, delay).id == id)
    case Cancel(c) => before && c != id
    case Drain => false
    case TimeOut(task) => before && task.id != id
    case _ => before
  }

  lemma {:induction false} RegisteredIff(steps: seq<Step>, ss: seq<State>, i: nat, id: nat)
    requires Trace(steps, ss) && i < |ss| && id > 0
    ensures id in ss[i].ids <==> LastAdded(steps[..i], ss, id)
    ensures forall t <- ss[i].tasks :: t.id > 0
  {
    if i > 0 {
      RegisteredIff(steps, ss, i - 1, id);
      assert steps[..i][..i - 1] == steps[..i - 1];
      assert Next(ss[i - 1], steps[i - 1], ss[i]);
    }
  }

  /** A task that is taken from the queue runs exactly when, since the last add that gave out its id, that id was
      neither cancelled nor used up by another task that was taken; otherwise it is dropped. */
  lemma RunsIff(steps: seq<Step>, ss: seq<State>, i: nat)
    requires Trace(steps, ss) && i < |steps| && steps[i].TimeOut?
    ensures ss[i + 1].phase == Running(steps[i].task) <==> LastAdded(steps[..i], ss, steps[i].task.id)
    ensures !LastAdded(steps[..i], ss, steps[i].task.id) ==> ss[i + 1].phase == AtHead
  {
    var task := steps[i].task;
    assert Next(ss[i], steps[i], ss[i + 1]);
    RegisteredIff(steps, ss, i, 1);
    RegisteredIff(steps, ss, i, task.id);
  }

  // ----- the ids of one thread

  /** How many tasks the thread added before shutdown began. */
  function Adds(steps: seq<Step>, ss: seq<State>, thread: nat): nat
    requires |steps| <= |ss|
  {
    if steps == [] then 0
    else
      var last := |steps| - 1;
      Adds(steps[..last], ss, thread)
        + if steps[last].Add? && steps[last].thread == thread && !ss[last].stopped then 1 else 0
  }

  /** The id given out last when `k` tasks were added. */
  function Cycled(k: nat): nat
  {
    if k == 0 then 0 else 1 + (k - 1) % (ID_LIMIT - 1)
  }

  lemma BumpCycles(k: nat)
    ensures Bump(Cycled(k)) == Cycled(k + 1) == 1 + k % (ID_LIMIT - 1)
  {
    if k > 0 {
      var n := ID_LIMIT - 1;
      assert k == (k - 1) / n * n + (k - 1) % n + 1;
    }
  }

  /** A thread gives out the ids from 1 to 2^32 - 1 in turn and then again, in every run and whatever the others do. */
  lemma {:induction false} IdsInTurn(steps: seq<Step>, ss: seq<State>, thread: nat, i: nat)
    requires Trace(steps, ss) && i < |ss|
    ensures var k := Adds(steps[..i], ss, thread);
      && Counter(ss[i], thread) == Cycled(k)
      && forall delay: nat :: Created(ss[i], thread, delay).id == 1 + k % (ID_LIMIT - 1)
  {
    BumpCycles(Adds(steps[..i], ss, thread));
    if i > 0 {
      hide Bump, Next, Counter;
      IdsInTurn(steps, ss, thread, i - 1);
      BumpCycles(Adds(steps[..i - 1], ss, thread));
      CounterNext(ss[i - 1], steps[i - 1], ss[i], thread);
      AddsNext(steps, ss, thread, i);
    }
  }

  lemma CounterNext(s: State, step: Step, s': State, thread: nat)
    requires Next(s, step, s')
    ensures Counter(s', thread) ==
      if step.Add? && step.thread == thread && !s.stopped then Bump(Counter(s, thread)) else Counter(s, thread)
  {
    hide Bump;
  }

  lemma AddsNext(steps: seq<Step>, ss: seq<State>, thread: nat, i: nat)
    requires 0 < i <= |steps| <= |ss|
    ensures Adds(steps[..i], ss, thread) == Adds(steps[..i - 1], ss, thread) +
      if steps[i - 1].Add? && steps[i - 1].thread == thread && !ss[i - 1].stopped then 1 else 0
  {
    assert steps[..i][..i - 1] == steps[..i - 1];
  }

  // ----- one adding thread

  /** All ids come from one counter that has not wrapped. */
  predicate OneThread(s: State, thread: nat)
  {
    && s.counters.Keys <= {thread} && Counter(s, thread) == s.created < ID_LIMIT
    && forall t <- s.tasks :: t.id <= s.created
  }

  lemma OneThreadStep(s: State, step: Step, s': State, thread: nat)
    requires OneThread(s, thread) && Next(s, step, s')
    requires step.Add? ==> step.thread == thread && s.created + 1 < ID_LIMIT
    ensures FreshId(s, step) && OneThread(s', thread)
  {
    if step.Add? && !s.stopped {
      assert Bump(Counter(s, thread)) == s.created + 1;
    }
  }

  /** With a single adding thread and fewer than 2^32 tasks ids are always fresh. */
  lemma {:induction false} OneThreadFresh(steps: seq<Step>, ss: seq<State>, thread: nat, i: nat)
    requires Trace(steps, ss) && i < |ss| && |steps| < ID_LIMIT - 1
    requires forall k | 0 <= k < |steps| && steps[k].Add? :: steps[k].thread == thread
    ensures OneThread(ss[i], thread) && ss[i].created <= i
    ensures forall k | 0 <= k < i :: FreshId(ss[k], steps[k])
  {
    hide FreshId;
    if i > 0 {
      OneThreadFresh(steps, ss, thread, i - 1);
      OneThreadStep(ss[i - 1], steps[i - 1], ss[i], thread);
    }
  }

  /** Two adding threads give out the same ids: of two waiting tasks with one id the second is dropped, though nothing
      was cancelled. */
  lemma TwoThreadsDropTask() returns (steps: seq<Step>, ss: seq<State>)
    ensures Trace(steps, ss)
    ensures var f := Fates(steps, ss); f.cancelled == {} && f.dropped != {}
  {
    var t, u := Task(0, 1, 0), Task(1, 1, 0);
    var s1 := State({t}, {1}, map[0 := 1], 1, false, 0, AtHead);
    var s2 := State({t, u}, {1}, map[0 := 1, 1 := 1], 2, false, 0, AtHead);
    var s3 := s2.(phase := Waiting(Some(0)));
    var s4 := s2.(tasks := {u}, ids := {}, phase := Running(t));
    var s5 := s4.(phase := AtHead);
    var s6 := s4.(phase := Waiting(Some(0)));
    var s7 := s6.(tasks := {}, phase := AtHead);
    steps := [Add(0, 0), Add(1, 0), Look, TimeOut(t), Finish, Look, TimeOut(u)];
    ss := [Start(), s1, s2, s3, s4, s5, s6, s7];
    assert Created(Start(), 0, 0) == t && Created(s1, 1, 0) == u;
    assert {} + {t} == {t} && {t} + {u} == {t, u} && {} + {1} == {1} && {1} + {1} == {1};
    assert map[][0 := 1] == map[0 := 1] && map[0 := 1][1 := 1] == map[0 := 1, 1 := 1];
    assert OnTop(s2.tasks, t) && OnTop(s5.tasks, u);
    assert {t, u} - {t} == {u} && {1} - {1} == {} && {u} - {u} == {};
    FatesOf(steps, ss);
  }

  lemma FatesOf(steps: seq<Step>, ss: seq<State>)
    requires |ss| >= |steps| && |steps| == 7
    requires forall i | 0 <= i < 7 :: !steps[i].Cancel?
    requires steps[6].TimeOut? && steps[6].task.id !in ss[6].ids
    ensures Fates(steps, ss).cancelled == {} && steps[6].task in Fates(steps, ss).dropped
  {
    NeverCancelled(steps, ss);
  }

  lemma {:induction false} NeverCancelled(steps: seq<Step>, ss: seq<State>)
    requires |ss| >= |steps| && forall i | 0 <= i < |steps| :: !steps[i].Cancel?
    ensures Fates(steps, ss).cancelled == {}
  {
    if steps != [] { NeverCancelled(steps[..|steps| - 1], ss); }
  }

  // ----- the scheduler

  class Scheduler {
    var tasks: seq<Task>            // the queue, in any order
    var ids: set<nat>
    var counters: map<nat, nat>     // one for each adding thread
    var created: nat
    var stopped: bool
    var phase: Phase

    constructor ()
      ensures Valid() && Snapshot(0) == Start()
    {
      tasks, ids, counters, created, stopped, phase := [], {}, map[], 0, false, AtHead;
    }

    ghost predicate Valid()
      reads this
    {
      && (forall i, j | 0 <= i < j < |tasks| :: tasks[i] != tasks[j])
      && forall t <- tasks :: t.serial < created
    }

    ghost function Snapshot(now: nat): State
      reads this
    {
      State(Elements(tasks), ids, counters, created, stopped, now, phase)
    }

    /** The position of a task that is due first. */
    method Top() returns (at: nat)
      requires tasks != []
      ensures at < |tasks| && OnTop(Elements(tasks), tasks[at])
    {
      at := 0;
      var i := 1;
      while i < |tasks|
        invariant at < i <= |tasks|
        invariant forall j | 0 <= j < i :: tasks[at].due <= tasks[j].due
      {
        if tasks[i].due < tasks[at].due {
          at := i;
        }
        i := i + 1;
      }
    }

    /** 0 after shutdown began; otherwise the id of the new task, and whether the worker is to be notified because the
        task is on top. */
    method AddTask(thread: nat, delay: nat, now: nat) returns (id: nat, notify: bool)
      requires Valid()
      modifies this`tasks, this`ids, this`counters, this`created
      ensures Valid() && Next(old(Snapshot(now)), Add(thread, delay), Snapshot(now))
      ensures id == if stopped then 0 else Created(old(Snapshot(now)), thread, delay).id
      ensures !stopped ==> |tasks| == |old(tasks)| + 1 && tasks[..|old(tasks)|] == old(tasks)
      ensures !stopped ==> tasks[|old(tasks)|].id == id && tasks[|old(tasks)|].due == now + delay
      ensures notify ==> !stopped && forall t <- old(tasks) :: now + delay <= t.due
      ensures !stopped && (forall t <- old(tasks) :: now + delay < t.due) ==> notify
    {
      if stopped {
        return 0, false;
      }
      id := Bump(if thread in counters then counters[thread] else 0);
      counters := counters[thread := id];
      var task := Task(created, id, now + delay);
      ghost var before := tasks;
      created := created + 1;
      ids := ids + {id};
      tasks := tasks + [task];
      assert Elements(tasks) == Elements(before) + {task};
      var top := Top();
      notify := tasks[top] == task;
      assert task in Elements(tasks) && tasks[top] in Elements(tasks);
    }

    method CancelTask(id: nat)
      requires Valid()
      modifies this`ids
      ensures Valid() && forall now: nat :: Next(old(Snapshot(now)), Cancel(id), Snapshot(now))
    {
      if id == 0 {
        return;
      }
      if id in ids {
        ids := ids - {id};
      }
    }

    /** The first half of `Shutdown`, without the lock. */
    method SetStopped()
      requires Valid()
      modifies this`stopped
      ensures Valid() && forall now: nat :: Next(old(Snapshot(now)), Stop, Snapshot(now))
    {
      stopped := true;
    }

    /** The second half: the queue is emptied task by task. */
    method DrainQueue()
      requires Valid() && stopped
      modifies this`tasks, this`ids
      ensures Valid() && forall now: nat :: Next(old(Snapshot(now)), Drain, Snapshot(now))
    {
      while tasks != []
        invariant Valid()
        decreases |tasks|
      {
        var top := Top();
        tasks := tasks[..top] + tasks[top + 1..];
      }
      ids := {};
    }

    /** The worker at the head of its loop: it ends, or waits, for the task on top if there is one. */
    method LookForWork(now: nat)
      requires Valid() && phase == AtHead
      modifies this`phase
      ensures Valid() && Next(old(Snapshot(now)), Look, Snapshot(now))
    {
      if stopped {
        phase := Ended;
      } else if tasks == [] {
        assert Elements(tasks) == {};
        phase := Waiting(None);
      } else {
        var top := Top();
        assert tasks[top] in Elements(tasks);
        phase := Waiting(Some(tasks[top].due));
      }
    }

    method WakeUp()
      requires Valid() && phase.Waiting?
      modifies this`phase
      ensures Valid() && forall now: nat :: Next(old(Snapshot(now)), Wake, Snapshot(now))
    {
      phase := AtHead;
    }

    /** The wait ran out: the task that is on top now is taken, and runs if its id is still registered. */
    method TakeTask(now: nat) returns (task: Task)
      requires Valid() && phase.Waiting? && phase.until.Some? && phase.until.value <= now && !Stuck(Snapshot(now))
      modifies this`tasks, this`ids, this`phase
      ensures Valid() && Next(old(Snapshot(now)), TimeOut(task), Snapshot(now))
    {
      assert Elements(tasks) != {};
      var top := Top();
      task := tasks[top];
      ghost var before := tasks;
      tasks := tasks[..top] + tasks[top + 1..];
      TakenOut(before, top);
      if task.id !in ids {
        phase := AtHead;
        return;
      }
      ids := ids - {task.id};
      phase := Running(task);
    }

    method FinishTask()
      requires Valid() && phase.Running?
      modifies this`phase
      ensures Valid() && forall now: nat :: Next(old(Snapshot(now)), Finish, Snapshot(now))
    {
      phase := AtHead;
    }
  }

  lemma TakenOut(tasks: seq<Task>, top: nat)
    requires top < |tasks| && forall i, j | 0 <= i < j < |tasks| :: tasks[i] != tasks[j]
    ensures Elements(tasks[..top] + tasks[top + 1..]) == Elements(tasks) - {tasks[top]}
  {
    var rest := tasks[..top] + tasks[top + 1..];
    forall t | t in tasks && t != tasks[top] ensures t in rest {
      var i :| 0 <= i < |tasks| && tasks[i] == t;
      if i < top { assert rest[i] == t; } else { assert rest[i - 1] == t; }
    }
  }
}
