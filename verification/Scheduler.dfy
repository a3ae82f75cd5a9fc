/**
 * The bounded task scheduler: up to `max` tasks run, up to `maxQueued` wait, the rest are
 * rejected; a finished task drains the queue. Task ids are the callers' and may repeat.
 */
module Scheduler {

  type TaskId = string

  datatype Outcome = Resolved | Rejected | Canceled | Overloaded

  datatype Fate = Queued | Running | Settled(outcome: Outcome)

  /** `settles` counts the calls of the task's resolve and reject. */
  datatype Task = Task(id: TaskId, fate: Fate, settles: nat)

  /** Tasks are numbered in submission order; `started` lists them as they were started. */
  datatype Executor = Executor(
    max: nat, maxQueued: nat, tasks: seq<Task>, queue: seq<nat>, active: nat, started: seq<nat>)

  datatype Step = Execute(id: TaskId) | Cancel(id: TaskId) | Finish(k: nat, ok: bool)

  function FirstWith(tasks: seq<Task>, queue: seq<nat>, id: TaskId): (r: nat)
    ensures r <= |queue|
    ensures r < |queue| ==> queue[r] < |tasks| && tasks[queue[r]].id == id
    ensures forall i | 0 <= i < r :: !(queue[i] < |tasks| && tasks[queue[i]].id == id)
  {
    if queue == [] then 0
    else if queue[0] < |tasks| && tasks[queue[0]].id == id then 0
    else 1 + FirstWith(tasks, queue[1..], id)
  }

  function Without(queue: seq<nat>, i: nat): seq<nat> {
    if i < |queue| then queue[..i] + queue[i + 1..] else queue
  }

  /** runEntry up to its await: remove the id from the queue, take a slot. */
  function Start(s: Executor, k: nat): Executor
    requires k < |s.tasks|
  {
    s.(tasks := s.tasks[k := s.tasks[k].(fate := Running)],
       queue := Without(s.queue, FirstWith(s.tasks, s.queue, s.tasks[k].id)),
       active := s.active + 1,
       started := s.started + [k])
  }

  function Settle(t: Task, outcome: Outcome): Task { t.(fate := Settled(outcome), settles := t.settles + 1) }

  function Drain(s: Executor): Executor
    decreases |s.queue|
  {
    if s.active < s.max && s.queue != [] && s.queue[0] < |s.tasks|
    then Drain(Start(s.(queue := s.queue[1..]), s.queue[0]))
    else s
  }

  function Added(s: Executor, id: TaskId): Executor { s.(tasks := s.tasks + [Task(id, Queued, 0)]) }

  function Executed(s: Executor, id: TaskId): Executor {
    var k, s1 := |s.tasks|, Added(s, id);
    if s.active < s.max then Start(s1, k)
    else if |s.queue| >= s.maxQueued then s1.(tasks := s1.tasks[k := Settle(s1.tasks[k], Overloaded)])
    else s1.(queue := s.queue + [k])
  }

  function Withdrawn(s: Executor, id: TaskId): Executor {
    var i := FirstWith(s.tasks, s.queue, id);
    if i < |s.queue| then
      s.(tasks := s.tasks[s.queue[i] := Settle(s.tasks[s.queue[i]], Canceled)], queue := Without(s.queue, i))
    else s
  }

  /** The delegate is done with a task: its promise settles, its slot is freed. */
  function Freed(s: Executor, k: nat, ok: bool): Executor
    requires k < |s.tasks|
  {
    s.(tasks := s.tasks[k := Settle(s.tasks[k], if ok then Resolved else Rejected)],
       active := if s.active > 0 then s.active - 1 else 0)
  }

  function Finished(s: Executor, k: nat, ok: bool): Executor {
    if k < |s.tasks| && s.tasks[k].fate == Running then Drain(Freed(s, k, ok)) else s
  }

  function Take(s: Executor, e: Step): Executor {
    match e
    case Execute(id) => Executed(s, id)
    case Cancel(id) => Withdrawn(s, id)
    case Finish(k, ok) => Finished(s, k, ok)
  }

  function Run(s: Executor, steps: seq<Step>): Executor
    decreases steps
  {
    if steps == [] then s else Run(Take(s, steps[0]), steps[1..])
  }

  function Fresh(max: nat, maxQueued: nat): Executor { Executor(max, maxQueued, [], [], 0, []) }

  // ---- The invariant -----------------------------------------------------------------

  function RunningCount(tasks: seq<Task>): nat {
    if tasks == [] then 0
    else RunningCount(tasks[..|tasks| - 1]) + (if tasks[|tasks| - 1].fate == Running then 1 else 0)
  }

  lemma {:induction false} CountUpdate(tasks: seq<Task>, k: nat, t: Task)
    requires k < |tasks|
    ensures RunningCount(tasks[k := t]) + (if tasks[k].fate == Running then 1 else 0)
         == RunningCount(tasks) + (if t.fate == Running then 1 else 0)
  {
    var n := |tasks| - 1;
    if k == n {
      assert tasks[k := t][..n] == tasks[..n];
    } else {
      assert tasks[k := t][..n] == tasks[..n][k := t];
      CountUpdate(tasks[..n], k, t);
    }
  }

  lemma CountAdd(tasks: seq<Task>, t: Task)
    ensures RunningCount(tasks + [t]) == RunningCount(tasks) + (if t.fate == Running then 1 else 0)
  {
    assert (tasks + [t])[..|tasks|] == tasks;
  }

  /** Submission order: numbers strictly rise, and everything started precedes everything queued. */
  ghost predicate Rising(s: seq<nat>) { forall i, j | 0 <= i < j < |s| :: s[i] < s[j] }

  ghost predicate TasksOk(s: Executor) {
    && (forall i | 0 <= i < |s.queue| :: s.queue[i] < |s.tasks| && s.tasks[s.queue[i]].fate == Queued)
    && (forall i | 0 <= i < |s.started| :: s.started[i] < |s.tasks| && s.tasks[s.started[i]].fate != Queued)
    && (forall k | 0 <= k < |s.tasks| && s.tasks[k].fate == Running :: k in s.started)
    && (forall k | 0 <= k < |s.tasks| :: s.tasks[k].settles == if s.tasks[k].fate.Settled? then 1 else 0)
  }

  ghost predicate OrderOk(s: Executor) {
    Rising(s.started) && Rising(s.queue)
    && forall i, j | 0 <= i < |s.started| && 0 <= j < |s.queue| :: s.started[i] < s.queue[j]
  }

  /** All but the last clause, which a finished task breaks until the queue is drained. */
  ghost predicate SlotsOk(s: Executor) {
    && s.max >= 1 && TasksOk(s) && OrderOk(s)
    && s.active == RunningCount(s.tasks) && s.active <= s.max && |s.queue| <= s.maxQueued
  }

  ghost predicate ExecutorOk(s: Executor) { SlotsOk(s) && (s.queue != [] ==> s.active == s.max) }

  lemma RisingWithout(queue: seq<nat>, i: nat)
    requires Rising(queue)
    ensures Rising(Without(queue, i))
    ensures forall x <- Without(queue, i) :: x in queue
    ensures i < |queue| ==> queue[i] !in Without(queue, i)
    ensures |Without(queue, i)| == if i < |queue| then |queue| - 1 else |queue|
  {
  }

  /** Starting a task that every queued one was submitted after. */
  lemma StartOk(s: Executor, k: nat)
    requires s.max >= 1 && TasksOk(s) && OrderOk(s) && s.active == RunningCount(s.tasks) && s.active < s.max
    requires |s.queue| <= s.maxQueued && k < |s.tasks| && s.tasks[k].fate == Queued && k !in s.queue
    requires forall i | 0 <= i < |s.started| :: s.started[i] < k
    requires forall i | 0 <= i < |s.queue| :: k < s.queue[i]
    ensures SlotsOk(Start(s, k))
  {
    var s' := Start(s, k);
    CountUpdate(s.tasks, k, s.tasks[k].(fate := Running));
    RisingWithout(s.queue, FirstWith(s.tasks, s.queue, s.tasks[k].id));
    StartTasks(s, s', k);
    StartOrder(s, s', k);
  }

  lemma StartOrder(s: Executor, s': Executor, k: nat)
    requires OrderOk(s) && s'.started == s.started + [k] && Rising(s'.queue)
    requires forall x <- s'.queue :: x in s.queue
    requires forall i | 0 <= i < |s.started| :: s.started[i] < k
    requires forall i | 0 <= i < |s.queue| :: k < s.queue[i]
    ensures OrderOk(s')
  {
    forall j | 0 <= j < |s'.queue| ensures s'.queue[j] in s.queue {}
  }

  lemma StartTasks(s: Executor, s': Executor, k: nat)
    requires TasksOk(s) && k < |s.tasks| && s.tasks[k].fate == Queued && k !in s.queue
    requires s'.tasks == s.tasks[k := s.tasks[k].(fate := Running)] && s'.started == s.started + [k]
    requires forall x <- s'.queue :: x in s.queue
    ensures TasksOk(s')
  {
    assert k in s'.started;
    forall j | 0 <= j < |s'.tasks| && s'.tasks[j].fate == Running ensures j in s'.started {
      if j != k { assert j in s.started; }
    }
    forall i | 0 <= i < |s'.queue| ensures s'.queue[i] < |s'.tasks| && s'.tasks[s'.queue[i]].fate == Queued {
      assert s'.queue[i] in s.queue;
    }
  }

  /** Draining stops after one start when one slot was freed. */
  lemma DrainOk(s: Executor)
    requires SlotsOk(s) && (s.queue != [] ==> s.active + 1 >= s.max)
    ensures ExecutorOk(Drain(s))
    ensures Drain(s) == if s.active < s.max && s.queue != [] then Start(s.(queue := s.queue[1..]), s.queue[0]) else s
  {
    if s.active < s.max && s.queue != [] {
      var k := s.queue[0];
      var s1 := s.(queue := s.queue[1..]);
      forall i | 0 <= i < |s1.queue| ensures k < s1.queue[i] { assert s1.queue[i] == s.queue[i + 1]; }
      StartOk(s1, k);
    }
  }

  lemma FreedOk(s: Executor, k: nat, ok: bool)
    requires ExecutorOk(s) && k < |s.tasks| && s.tasks[k].fate == Running
    ensures SlotsOk(Freed(s, k, ok))
    ensures Freed(s, k, ok).active == s.active - 1
  {
    CountUpdate(s.tasks, k, Settle(s.tasks[k], if ok then Resolved else Rejected));
    CountUpdate(s.tasks, k, s.tasks[k].(fate := Queued));
  }

  lemma AddedOk(s: Executor, id: TaskId)
    requires TasksOk(s)
    ensures TasksOk(Added(s, id)) && RunningCount(Added(s, id).tasks) == RunningCount(s.tasks)
    ensures |s.tasks| !in s.queue
    ensures forall i | 0 <= i < |s.started| :: s.started[i] < |s.tasks|
    ensures forall i | 0 <= i < |s.queue| :: s.queue[i] < |s.tasks|
  {
    CountAdd(s.tasks, Task(id, Queued, 0));
  }

  lemma RefusedOk(s: Executor, id: TaskId)
    requires ExecutorOk(s) && s.active >= s.max
    ensures var s1, k := Added(s, id), |s.tasks|;
            ExecutorOk(s1.(tasks := s1.tasks[k := Settle(s1.tasks[k], Overloaded)]))
  {
    AddedOk(s, id);
    CountUpdate(Added(s, id).tasks, |s.tasks|, Settle(Added(s, id).tasks[|s.tasks|], Overloaded));
  }

  lemma QueuedOk(s: Executor, id: TaskId)
    requires ExecutorOk(s) && s.active >= s.max && |s.queue| < s.maxQueued
    ensures ExecutorOk(Added(s, id).(queue := s.queue + [|s.tasks|]))
  {
    AddedOk(s, id);
  }

  lemma StartedOk(s: Executor, id: TaskId)
    requires ExecutorOk(s) && s.active < s.max
    ensures ExecutorOk(Start(Added(s, id), |s.tasks|))
  {
    AddedOk(s, id);
    assert s.queue == [];
    StartOk(Added(s, id), |s.tasks|);
    RisingWithout(s.queue, FirstWith(Added(s, id).tasks, s.queue, id));
  }

  lemma ExecutedOk(s: Executor, id: TaskId)
    requires ExecutorOk(s)
    ensures ExecutorOk(Executed(s, id))
  {
    if s.active < s.max {
      StartedOk(s, id);
    } else if |s.queue| >= s.maxQueued {
      RefusedOk(s, id);
    } else {
      QueuedOk(s, id);
    }
  }

  lemma CanceledOk(s: Executor, id: TaskId)
    requires ExecutorOk(s)
    ensures ExecutorOk(Withdrawn(s, id))
  {
    var i := FirstWith(s.tasks, s.queue, id);
    if i < |s.queue| {
      CountUpdate(s.tasks, s.queue[i], Settle(s.tasks[s.queue[i]], Canceled));
      RisingWithout(s.queue, i);
      var s' := Withdrawn(s, id);
      forall j | 0 <= j < |s'.queue| ensures s'.queue[j] in s.queue && s'.queue[j] != s.queue[i] {
        assert s'.queue[j] in Without(s.queue, i);
      }
    }
  }

  lemma TakeOk(s: Executor, e: Step)
    requires ExecutorOk(s)
    ensures ExecutorOk(Take(s, e))
  {
    match e
    case Execute(id) => ExecutedOk(s, id);
    case Cancel(id) => CanceledOk(s, id);
    case Finish(k, ok) =>
      if k < |s.tasks| && s.tasks[k].fate == Running {
        FreedOk(s, k, ok);
        DrainOk(Freed(s, k, ok));
      }
  }

  lemma {:induction false} RunOk(s: Executor, steps: seq<Step>)
    requires ExecutorOk(s)
    ensures ExecutorOk(Run(s, steps))
    decreases steps
  {
    if steps != [] {
      TakeOk(s, steps[0]);
      RunOk(Take(s, steps[0]), steps[1..]);
    }
  }

  // ---- Main results ------------------------------------------------------------------

  /**
   * In every run, repeated ids included: as many tasks run as slots are taken, both bounds
   * hold, tasks wait only while all slots are busy, each task is settled at most once (and
   * only when it is over), and tasks start in submission order.
   */
  lemma BoundsAndOrder(max: nat, maxQueued: nat, steps: seq<Step>)
    requires max >= 1
    ensures var s := Run(Fresh(max, maxQueued), steps);
            && s.active == RunningCount(s.tasks) <= s.max && |s.queue| <= s.maxQueued
            && (s.queue != [] ==> s.active == s.max)
            && (forall k | 0 <= k < |s.tasks| :: s.tasks[k].settles == if s.tasks[k].fate.Settled? then 1 else 0)
            && Rising(s.started + s.queue)
  {
    RunOk(Fresh(max, maxQueued), steps);
  }

  /** A task that waits but is no longer in the queue: nobody will ever start or settle it. */
  predicate Lost(s: Executor, k: nat) { k < |s.tasks| && s.tasks[k].fate == Queued && k !in s.queue }

  /** A lost task stays lost, so its promise never settles. */
  lemma LostStays(s: Executor, e: Step, k: nat)
    requires ExecutorOk(s) && Lost(s, k)
    ensures Lost(Take(s, e), k)
  {
    match e
    case Execute(_) =>
    case Cancel(id) => LostThroughCancel(s, id, k);
    case Finish(j, ok) =>
      if j < |s.tasks| && s.tasks[j].fate == Running {
        FreedOk(s, j, ok);
        DrainOk(Freed(s, j, ok));
        if s.queue != [] { LostThroughStart(Freed(s, j, ok), k); }
      }
  }

  lemma LostThroughStart(s1: Executor, k: nat)
    requires SlotsOk(s1) && s1.queue != [] && Lost(s1, k)
    ensures Lost(Start(s1.(queue := s1.queue[1..]), s1.queue[0]), k)
  {
    assert s1.queue[0] in s1.queue;
    DropsOnly(s1.queue, FirstWith(s1.tasks, s1.queue[1..], s1.tasks[s1.queue[0]].id), k);
  }

  lemma LostThroughCancel(s: Executor, id: TaskId, k: nat)
    requires ExecutorOk(s) && Lost(s, k)
    ensures Lost(Withdrawn(s, id), k)
  {
    var i := FirstWith(s.tasks, s.queue, id);
    if i < |s.queue| {
      assert s.queue[i] in s.queue;
      RisingWithout(s.queue, i);
    }
  }

  lemma {:induction false} LostForever(s: Executor, steps: seq<Step>, k: nat)
    requires ExecutorOk(s) && Lost(s, k)
    ensures Lost(Run(s, steps), k)
    decreases steps
  {
    if steps != [] {
      LostStays(s, steps[0], k);
      TakeOk(s, steps[0]);
      LostForever(Take(s, steps[0]), steps[1..], k);
    }
  }

  /** Task `k` is next in line, and the queue holds a later task with the same id. */
  ghost predicate Shadowed(s: Executor, k: nat) {
    && |s.queue| >= 2 && s.queue[0] < |s.tasks|
    && exists i :: 0 < i < |s.queue| && s.queue[i] == k && k < |s.tasks| && s.tasks[k].id == s.tasks[s.queue[0]].id
                   && forall j | 0 < j < i :: s.queue[j] < |s.tasks| ==> s.tasks[s.queue[j]].id != s.tasks[k].id
  }

  /**
   * Exactly when a task is lost: a running task finishes, the head of the queue is started,
   * and this one is the next queued task with the same id.
   */
  lemma LosesIff(s: Executor, e: Step, k: nat)
    requires ExecutorOk(s) && !Lost(s, k)
    ensures Lost(Take(s, e), k) <==>
              e.Finish? && e.k < |s.tasks| && s.tasks[e.k].fate == Running && Shadowed(s, k)
  {
    match e
    case Execute(_) =>
      if Lost(Take(s, e), k) { NotLostByExecute(s, e.id, k); }
    case Cancel(id) => NotLostByCancel(s, id, k);
    case Finish(j, ok) =>
      if j < |s.tasks| && s.tasks[j].fate == Running {
        var s1 := Freed(s, j, ok);
        FreedOk(s, j, ok);
        DrainOk(s1);
        if s.queue != [] { LosesAtStart(s, s1, k); }
      }
  }

  lemma NotLostByExecute(s: Executor, id: TaskId, k: nat)
    requires ExecutorOk(s) && !Lost(s, k)
    ensures !Lost(Executed(s, id), k)
  {
    if k == |s.tasks| && s.active >= s.max && |s.queue| < s.maxQueued {
      assert (s.queue + [k])[|s.queue|] == k;
    }
  }

  lemma NotLostByCancel(s: Executor, id: TaskId, k: nat)
    requires ExecutorOk(s) && !Lost(s, k)
    ensures !Lost(Withdrawn(s, id), k)
  {
    var i := FirstWith(s.tasks, s.queue, id);
    if i < |s.queue| && k in s.queue && k != s.queue[i] {
      StillIn(s.queue, i, k);
    }
  }

  lemma StillIn(queue: seq<nat>, i: nat, k: nat)
    requires i < |queue| && k in queue && k != queue[i]
    ensures k in Without(queue, i)
  {
    var j :| 0 <= j < |queue| && queue[j] == k;
    if j < i { assert Without(queue, i)[j] == k; } else { assert Without(queue, i)[j - 1] == k; }
  }

  lemma LosesAtStart(s: Executor, s1: Executor, k: nat)
    requires SlotsOk(s1) && s1.queue == s.queue != [] && |s1.tasks| == |s.tasks| && !Lost(s, k)
    requires forall i | 0 <= i < |s.tasks| :: s1.tasks[i].id == s.tasks[i].id
    requires forall i | 0 <= i < |s.tasks| :: s1.tasks[i].fate == Queued <==> s.tasks[i].fate == Queued
    ensures Lost(Start(s1.(queue := s1.queue[1..]), s1.queue[0]), k) <==> Shadowed(s, k)
  {
    var head, rest := s.queue[0], s.queue[1..];
    var i := FirstWith(s1.tasks, rest, s1.tasks[head].id);
    ShadowedIsFirst(s, s1.tasks, k, i);
    DropsOnly(s.queue, i, k);
  }

  /** The queue without its head and without entry `i` of the rest. */
  lemma DropsOnly(queue: seq<nat>, i: nat, k: nat)
    requires queue != [] && Rising(queue)
    ensures k in Without(queue[1..], i) <==> k in queue && k != queue[0] && !(i < |queue[1..]| && queue[1..][i] == k)
  {
    var rest := queue[1..];
    RisingWithout(rest, i);
    assert queue == [queue[0]] + rest;
    if k in rest && i < |rest| && rest[i] != k { StillIn(rest, i, k); }
  }

  lemma ShadowedIsFirst(s: Executor, tasks: seq<Task>, k: nat, i: nat)
    requires s.queue != [] && |tasks| == |s.tasks|
    requires forall j | 0 <= j < |s.tasks| :: tasks[j].id == s.tasks[j].id
    requires forall j | 0 <= j < |s.queue| :: s.queue[j] < |s.tasks|
    requires i == FirstWith(tasks, s.queue[1..], tasks[s.queue[0]].id)
    ensures Shadowed(s, k) <==> i < |s.queue[1..]| && s.queue[1..][i] == k
  {
    var rest := s.queue[1..];
    if Shadowed(s, k) {
      var n :| 0 < n < |s.queue| && s.queue[n] == k && s.tasks[k].id == s.tasks[s.queue[0]].id
               && forall j | 0 < j < n :: s.queue[j] < |s.tasks| ==> s.tasks[s.queue[j]].id != s.tasks[k].id;
      assert rest[n - 1] == k;
      assert forall j | 0 <= j < |rest| :: rest[j] == s.queue[j + 1];
    } else if i < |rest| && rest[i] == k {
      FirstIsShadowed(s, tasks, k, i);
    }
  }

  lemma FirstIsShadowed(s: Executor, tasks: seq<Task>, k: nat, i: nat)
    requires s.queue != [] && |tasks| == |s.tasks|
    requires forall j | 0 <= j < |s.tasks| :: tasks[j].id == s.tasks[j].id
    requires forall j | 0 <= j < |s.queue| :: s.queue[j] < |s.tasks|
    requires i == FirstWith(tasks, s.queue[1..], tasks[s.queue[0]].id) && i < |s.queue[1..]| && s.queue[1..][i] == k
    ensures Shadowed(s, k)
  {
    assert s.queue[i + 1] == k && s.tasks[k].id == s.tasks[s.queue[0]].id;
    forall j | 0 < j < i + 1 ensures s.tasks[s.queue[j]].id != s.tasks[k].id {
      assert s.queue[1..][j - 1] == s.queue[j];
    }
  }

  // ---- What a call decides -----------------------------------------------------------

  /** All tasks but `k`, and all of the bookkeeping but the queue and the slots, are as before. */
  ghost predicate OnlyTask(s: Executor, s': Executor, k: nat) {
    && s'.max == s.max && s'.maxQueued == s.maxQueued && k < |s'.tasks| && |s.tasks| <= |s'.tasks|
    && (forall i | 0 <= i < |s.tasks| && i != k :: s'.tasks[i] == s.tasks[i])
  }

  /**
   * Submission: the new task starts at once exactly if fewer than `max` tasks run; otherwise
   * it is turned away exactly if `maxQueued` tasks wait, and else waits behind all of them.
   */
  lemma SubmissionDecides(s: Executor, id: TaskId)
    requires ExecutorOk(s)
    ensures var s', k := Take(s, Execute(id)), |s.tasks|;
            && |s'.tasks| == k + 1 && OnlyTask(s, s', k) && s'.tasks[k].id == id
            && if RunningCount(s.tasks) < s.max then
                 s'.tasks[k].fate == Running && s'.started == s.started + [k] && s'.queue == s.queue == []
                 && s'.active == s.active + 1
               else
                 && s'.started == s.started && s'.active == s.active
                 && if |s.queue| == s.maxQueued then s'.tasks[k].fate == Settled(Overloaded) && s'.queue == s.queue
                    else s'.tasks[k].fate == Queued && s'.queue == s.queue + [k]
  {
    AddedOk(s, id);
  }

  /** Position `n` holds the earliest waiting task of that id. */
  predicate EarliestWaiting(s: Executor, id: TaskId, n: nat) {
    && n < |s.queue| && s.queue[n] < |s.tasks| && s.tasks[s.queue[n]].id == id
    && forall j | 0 <= j < n :: s.queue[j] < |s.tasks| && s.tasks[s.queue[j]].id != id
  }

  lemma EarliestIsFirst(s: Executor, id: TaskId, n: nat)
    requires EarliestWaiting(s, id, n)
    ensures FirstWith(s.tasks, s.queue, id) == n
  {
  }

  /**
   * Cancellation of a waiting task: the earliest one of that id is settled as canceled and
   * leaves the queue; every other task, and the order of the rest of the queue, is as before.
   */
  lemma CancelTakesOut(s: Executor, id: TaskId, n: nat)
    requires ExecutorOk(s) && EarliestWaiting(s, id, n)
    ensures var s', k := Take(s, Cancel(id)), s.queue[n];
            && |s'.tasks| == |s.tasks| && OnlyTask(s, s', k)
            && s'.tasks[k] == Task(id, Settled(Canceled), 1)
            && s'.active == s.active && s'.started == s.started
            && s'.queue == s.queue[..n] + s.queue[n + 1..] && k !in s'.queue
  {
    EarliestIsFirst(s, id, n);
    RisingWithout(s.queue, n);
  }

  /** With no waiting task of that id nothing happens, whatever runs. */
  lemma CancelOfNone(s: Executor, id: TaskId)
    requires ExecutorOk(s) && forall n | 0 <= n < |s.queue| :: s.tasks[s.queue[n]].id != id
    ensures Take(s, Cancel(id)) == s
  {
  }

  /**
   * A running task that is done settles as its outcome says; its slot goes to the head of
   * the queue, or is free again. No other task changes.
   */
  lemma FinishDecides(s: Executor, k: nat, ok: bool)
    requires ExecutorOk(s) && k < |s.tasks| && s.tasks[k].fate == Running
    ensures var s' := Take(s, Finish(k, ok));
            && |s'.tasks| == |s.tasks| && s'.max == s.max && s'.maxQueued == s.maxQueued
            && s'.tasks[k] == Task(s.tasks[k].id, Settled(if ok then Resolved else Rejected), 1)
            && (forall i | 0 <= i < |s.tasks| && i != k && (s.queue != [] ==> i != s.queue[0]) ::
                  s'.tasks[i] == s.tasks[i])
            && if s.queue == [] then s'.active == s.active - 1 && s'.started == s.started && s'.queue == []
               else
                 && s'.active == s.active && s'.started == s.started + [s.queue[0]]
                 && s'.tasks[s.queue[0]] == s.tasks[s.queue[0]].(fate := Running)
  {
    FreedOk(s, k, ok);
    DrainOk(Freed(s, k, ok));
  }

  /** Only a running task can be done. */
  lemma FinishOfOther(s: Executor, k: nat, ok: bool)
    requires k >= |s.tasks| || s.tasks[k].fate != Running
    ensures Take(s, Finish(k, ok)) == s
  {
  }

  lemma SettledThroughCancel(s: Executor, id: TaskId, k: nat)
    requires ExecutorOk(s) && k < |s.tasks| && s.tasks[k].fate.Settled?
    ensures |Withdrawn(s, id).tasks| == |s.tasks| && Withdrawn(s, id).tasks[k] == s.tasks[k]
    ensures Withdrawn(s, id).started == s.started
  {
  }

  lemma SettledThroughFinish(s: Executor, j: nat, ok: bool, k: nat)
    requires ExecutorOk(s) && k < |s.tasks| && s.tasks[k].fate.Settled? && j < |s.tasks| && s.tasks[j].fate == Running
    ensures k < |Finished(s, j, ok).tasks| && Finished(s, j, ok).tasks[k] == s.tasks[k]
    ensures k in Finished(s, j, ok).started <==> k in s.started
  {
    FreedOk(s, j, ok);
    DrainOk(Freed(s, j, ok));
    assert s.queue != [] ==> s.queue[0] != k;
  }

  lemma SettledStays(s: Executor, e: Step, k: nat)
    requires ExecutorOk(s) && k < |s.tasks| && s.tasks[k].fate.Settled?
    ensures k < |Take(s, e).tasks| && Take(s, e).tasks[k] == s.tasks[k]
    ensures k in Take(s, e).started <==> k in s.started
  {
    match e
    case Execute(id) => SubmissionDecides(s, id);
    case Cancel(id) => SettledThroughCancel(s, id, k);
    case Finish(j, ok) => if j < |s.tasks| && s.tasks[j].fate == Running { SettledThroughFinish(s, j, ok, k); }
  }

  /** A settled task keeps its outcome for good; one that never started never will. */
  lemma {:induction false} SettledForGood(s: Executor, steps: seq<Step>, k: nat)
    requires ExecutorOk(s) && k < |s.tasks| && s.tasks[k].fate.Settled?
    ensures k < |Run(s, steps).tasks| && Run(s, steps).tasks[k] == s.tasks[k]
    ensures k in Run(s, steps).started <==> k in s.started
    decreases steps
  {
    if steps != [] {
      SettledStays(s, steps[0], k);
      TakeOk(s, steps[0]);
      SettledForGood(Take(s, steps[0]), steps[1..], k);
    }
  }

  lemma WaitingIsNotStarted(s: Executor, n: nat)
    requires TasksOk(s) && n < |s.queue|
    ensures s.queue[n] !in s.started
  {
  }

  /** A canceled task never runs, in any continuation. */
  lemma CanceledNeverStarts(s: Executor, id: TaskId, n: nat, steps: seq<Step>)
    requires ExecutorOk(s) && EarliestWaiting(s, id, n)
    ensures var s', k := Run(Take(s, Cancel(id)), steps), s.queue[n];
            k !in s'.started && k < |s'.tasks| && s'.tasks[k].fate == Settled(Canceled)
  {
    CancelTakesOut(s, id, n);
    WaitingIsNotStarted(s, n);
    TakeOk(s, Cancel(id));
    SettledForGood(Take(s, Cancel(id)), steps, s.queue[n]);
  }

  // ---- Distinct ids ------------------------------------------------------------------

  /** The ids submitted are new: no two tasks of the run share one. */
  ghost predicate DistinctIds(tasks: seq<Task>) {
    forall i, j | 0 <= i < j < |tasks| :: tasks[i].id != tasks[j].id
  }

  lemma TasksGrow(s: Executor, e: Step)
    requires ExecutorOk(s)
    ensures |s.tasks| <= |Take(s, e).tasks|
    ensures forall i | 0 <= i < |s.tasks| :: Take(s, e).tasks[i].id == s.tasks[i].id
  {
    if e.Finish? && e.k < |s.tasks| && s.tasks[e.k].fate == Running {
      FreedOk(s, e.k, e.ok);
      DrainOk(Freed(s, e.k, e.ok));
    }
  }

  lemma {:induction false} RunGrows(s: Executor, steps: seq<Step>)
    requires ExecutorOk(s)
    ensures |s.tasks| <= |Run(s, steps).tasks|
    ensures forall i | 0 <= i < |s.tasks| :: Run(s, steps).tasks[i].id == s.tasks[i].id
    decreases steps
  {
    if steps != [] {
      TakeOk(s, steps[0]);
      TasksGrow(s, steps[0]);
      RunGrows(Take(s, steps[0]), steps[1..]);
    }
  }

  lemma {:induction false} NothingLost(s: Executor, steps: seq<Step>, k: nat)
    requires ExecutorOk(s) && DistinctIds(Run(s, steps).tasks) && !Lost(s, k)
    ensures !Lost(Run(s, steps), k)
    decreases steps
  {
    if steps != [] {
      RunGrows(s, steps);
      LosesIff(s, steps[0], k);
      TakeOk(s, steps[0]);
      NothingLost(Take(s, steps[0]), steps[1..], k);
    }
  }

  /**
   * With distinct ids every submitted task is, in every run, in exactly one of the queue,
   * the running tasks and the settled ones.
   */
  lemma ExactlyOnePlace(max: nat, maxQueued: nat, steps: seq<Step>, k: nat)
    requires max >= 1 && DistinctIds(Run(Fresh(max, maxQueued), steps).tasks)
    requires k < |Run(Fresh(max, maxQueued), steps).tasks|
    ensures var s := Run(Fresh(max, maxQueued), steps);
            && (s.tasks[k].fate == Queued <==> k in s.queue)
            && (k in s.started <==> s.tasks[k].fate == Running
                                    || s.tasks[k].fate == Settled(Resolved) || s.tasks[k].fate == Settled(Rejected))
  {
    RunOk(Fresh(max, maxQueued), steps);
    RunStarts(Fresh(max, maxQueued), steps);
    NothingLost(Fresh(max, maxQueued), steps, k);
  }

  /** Only started tasks are resolved or rejected; only unstarted ones canceled or turned away. */
  ghost predicate StartsOk(s: Executor) {
    forall k | 0 <= k < |s.tasks| && s.tasks[k].fate.Settled? ::
      k in s.started <==> s.tasks[k].fate.outcome == Resolved || s.tasks[k].fate.outcome == Rejected
  }

  /** One task changes its fate, and perhaps is started, as its new fate says. */
  lemma StartsKept(s: Executor, s': Executor, k: nat)
    requires StartsOk(s) && k < |s'.tasks| && |s.tasks| <= |s'.tasks| <= |s.tasks| + 1
    requires forall i | 0 <= i < |s'.tasks| && i != k :: i < |s.tasks| && s'.tasks[i] == s.tasks[i]
    requires forall i | 0 <= i < |s'.tasks| && i != k :: i in s'.started <==> i in s.started
    requires s'.tasks[k].fate.Settled? ==>
               (k in s'.started <==> s'.tasks[k].fate.outcome == Resolved || s'.tasks[k].fate.outcome == Rejected)
    ensures StartsOk(s')
  {
  }

  lemma StartsAfterStart(s: Executor, k: nat)
    requires StartsOk(s) && k < |s.tasks|
    ensures StartsOk(Start(s, k))
  {
    StartsKept(s, Start(s, k), k);
  }

  lemma StartsAfterExecute(s: Executor, id: TaskId)
    requires ExecutorOk(s) && StartsOk(s)
    ensures StartsOk(Executed(s, id))
  {
    var k, s1 := |s.tasks|, Added(s, id);
    StartsKept(s, s1, k);
    if s.active < s.max {
      StartsAfterStart(s1, k);
    } else {
      StartsKept(s1, Executed(s, id), k);
    }
  }

  lemma StartsAfterCancel(s: Executor, id: TaskId)
    requires TasksOk(s) && StartsOk(s)
    ensures StartsOk(Withdrawn(s, id))
  {
    var i := FirstWith(s.tasks, s.queue, id);
    if i < |s.queue| { StartsKept(s, Withdrawn(s, id), s.queue[i]); }
  }

  lemma StartsAfterFinish(s: Executor, k: nat, ok: bool)
    requires ExecutorOk(s) && StartsOk(s) && k < |s.tasks| && s.tasks[k].fate == Running
    ensures StartsOk(Finished(s, k, ok))
  {
    var s1 := Freed(s, k, ok);
    FreedOk(s, k, ok);
    DrainOk(s1);
    StartsKept(s, s1, k);
    if s1.queue != [] { StartsAfterStart(s1.(queue := s1.queue[1..]), s1.queue[0]); }
  }

  lemma TakeStarts(s: Executor, e: Step)
    requires ExecutorOk(s) && StartsOk(s)
    ensures StartsOk(Take(s, e))
  {
    match e
    case Execute(id) => StartsAfterExecute(s, id);
    case Cancel(id) => StartsAfterCancel(s, id);
    case Finish(k, ok) => if k < |s.tasks| && s.tasks[k].fate == Running { StartsAfterFinish(s, k, ok); }
  }

  lemma {:induction false} RunStarts(s: Executor, steps: seq<Step>)
    requires ExecutorOk(s) && StartsOk(s)
    ensures StartsOk(Run(s, steps))
    decreases steps
  {
    if steps != [] {
      TakeOk(s, steps[0]);
      TakeStarts(s, steps[0]);
      RunStarts(Take(s, steps[0]), steps[1..]);
    }
  }

  /** One running task called `other`, two waiting ones called `id`. */
  function TwoWaiting(id: TaskId, other: TaskId): Executor {
    Executor(1, 2, [Task(other, Running, 0), Task(id, Queued, 0), Task(id, Queued, 0)], [1, 2], 1, [0])
  }

  lemma ReachesTwoWaiting(id: TaskId, other: TaskId)
    ensures Executed(Executed(Executed(Fresh(1, 2), other), id), id) == TwoWaiting(id, other)
  {
    var s1 := Executed(Fresh(1, 2), other);
    assert s1 == Executor(1, 2, [Task(other, Running, 0)], [], 1, [0]);
    var s2 := Executed(s1, id);
    assert s2 == Executor(1, 2, [Task(other, Running, 0), Task(id, Queued, 0)], [1], 1, [0]);
  }

  /** Repeated ids do lose a task: the second of two waiting tasks called `id`. */
  lemma RepeatedIdIsLost(id: TaskId, other: TaskId)
    ensures Lost(Run(Fresh(1, 2), [Execute(other)] + ([Execute(id)] + ([Execute(id)] + ([Finish(0, true)] + [])))), 2)
  {
    var s := TwoWaiting(id, other);
    ReachesTwoWaiting(id, other);
    RunOne(Fresh(1, 2), Execute(other), [Execute(id)] + ([Execute(id)] + ([Finish(0, true)] + [])));
    RunOne(Executed(Fresh(1, 2), other), Execute(id), [Execute(id)] + ([Finish(0, true)] + []));
    RunOne(Executed(Executed(Fresh(1, 2), other), id), Execute(id), [Finish(0, true)] + []);
    RunOne(s, Finish(0, true), []);
    TwoWaitingLoses(id, other);
  }

  lemma TwoWaitingLoses(id: TaskId, other: TaskId)
    ensures Lost(Finished(TwoWaiting(id, other), 0, true), 2)
  {
    TwoWaitingOk(id, other);
    assert TwoWaiting(id, other).queue[1] == 2;
    LosesIff(TwoWaiting(id, other), Finish(0, true), 2);
  }

  lemma TwoWaitingOk(id: TaskId, other: TaskId)
    ensures ExecutorOk(TwoWaiting(id, other))
  {
    var first, second := [Task(other, Running, 0)], [Task(other, Running, 0), Task(id, Queued, 0)];
    CountAdd([], Task(other, Running, 0));
    CountAdd(first, Task(id, Queued, 0));
    CountAdd(second, Task(id, Queued, 0));
    assert [] + [Task(other, Running, 0)] == first;
    assert first + [Task(id, Queued, 0)] == second;
    assert second + [Task(id, Queued, 0)] == TwoWaiting(id, other).tasks;
  }

  lemma RunOne(s: Executor, e: Step, rest: seq<Step>)
    ensures Run(s, [e] + rest) == Run(Take(s, e), rest)
  {
    assert ([e] + rest)[1..] == rest;
  }

  /** A finished task hands its slot to the head of the queue. */
  lemma FinishStartsHead(s: Executor, k: nat, ok: bool)
    requires ExecutorOk(s) && k < |s.tasks| && s.tasks[k].fate == Running && s.queue != []
    ensures var s' := Take(s, Finish(k, ok));
            && |s'.tasks| == |s.tasks| && s'.started == s.started + [s.queue[0]] && s'.tasks[s.queue[0]].fate == Running
            && s'.tasks[k].fate == Settled(if ok then Resolved else Rejected) && s'.active == s.max
  {
    FreedOk(s, k, ok);
    DrainOk(Freed(s, k, ok));
  }

  // ---- The executor object -----------------------------------------------------------

  class QueueingExecutor {
    const maxConcurrentTasks: nat
    const maxQueuedTasks: nat
    var tasks: seq<Task>
    var queue: seq<nat>
    var activeTasks: nat
    ghost var started: seq<nat>

    /** The constructor raises the limits to at least one slot and a queue of at least zero. */
    constructor (maxConcurrentTasks: int, maxQueuedTasks: int)
      ensures State() == Fresh(if maxConcurrentTasks < 1 then 1 else maxConcurrentTasks,
                               if maxQueuedTasks < 0 then 0 else maxQueuedTasks)
      ensures ExecutorOk(State())
    {
      this.maxConcurrentTasks := if maxConcurrentTasks < 1 then 1 else maxConcurrentTasks;
      this.maxQueuedTasks := if maxQueuedTasks < 0 then 0 else maxQueuedTasks;
      tasks, queue, activeTasks, started := [], [], 0, [];
    }

    ghost function State(): Executor
      reads this
    {
      Executor(maxConcurrentTasks, maxQueuedTasks, tasks, queue, activeTasks, started)
    }

    method QueueDelete(id: TaskId)
      modifies `queue
      ensures queue == Without(old(queue), FirstWith(tasks, old(queue), id))
    {
      var index := FirstWith(tasks, queue, id);
      if index < |queue| { queue := queue[..index] + queue[index + 1..]; }
    }

    method RunEntry(k: nat)
      requires k < |tasks|
      modifies this
      ensures State() == Start(old(State()), k)
    {
      QueueDelete(tasks[k].id);
      activeTasks := activeTasks + 1;
      tasks := tasks[k := tasks[k].(fate := Running)];
      started := started + [k];
    }

    method DrainQueue()
      requires SlotsOk(State()) && (queue != [] ==> activeTasks + 1 >= maxConcurrentTasks)
      modifies this
      ensures State() == Drain(old(State())) && ExecutorOk(State())
    {
      ghost var s0 := State();
      while activeTasks < maxConcurrentTasks && queue != []
        invariant SlotsOk(State()) && (queue != [] ==> activeTasks + 1 >= maxConcurrentTasks)
        invariant Drain(State()) == Drain(s0)
        decreases |queue|
      {
        DrainOk(State());
        var next := queue[0];
        queue := queue[1..];
        RunEntry(next);
      }
      DrainOk(State());
    }

    method Execute(id: TaskId)
      requires ExecutorOk(State())
      modifies this
      ensures State() == Executed(old(State()), id) && ExecutorOk(State())
    {
      ExecutedOk(State(), id);
      var k := |tasks|;
      tasks := tasks + [Task(id, Queued, 0)];
      if activeTasks < maxConcurrentTasks {
        RunEntry(k);
        return;
      }
      if |queue| >= maxQueuedTasks {
        tasks := tasks[k := Settle(tasks[k], Overloaded)];
        return;
      }
      queue := queue + [k];
    }

    method CancelTask(id: TaskId)
      requires ExecutorOk(State())
      modifies this
      ensures State() == Withdrawn(old(State()), id) && ExecutorOk(State())
    {
      CanceledOk(State(), id);
      var index := FirstWith(tasks, queue, id);
      if index < |queue| {
        var k := queue[index];
        queue := queue[..index] + queue[index + 1..];
        tasks := tasks[k := Settle(tasks[k], Canceled)];
      }
    }

    /** The `finally` of runEntry. */
    method OnFinished(k: nat, ok: bool)
      requires ExecutorOk(State()) && k < |tasks| && tasks[k].fate == Running
      modifies this
      ensures State() == Finished(old(State()), k, ok) && ExecutorOk(State())
    {
      FreedOk(State(), k, ok);
      tasks := tasks[k := Settle(tasks[k], if ok then Resolved else Rejected)];
      var left := activeTasks - 1;
      activeTasks := if left > 0 then left else 0;
      DrainQueue();
    }
  }
}
