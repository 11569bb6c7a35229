/**
 * The SKIP LOCKED worker pool: any number of workers claim the first free pending task, process it and commit,
 * poll while others still hold tasks, and may fail (their transaction rolling back) between any two statements.
 */
module Workers {
  import opened Options
  import opened Sums

  datatype Status = Pending | Done
  datatype Task = Task(status: Status, processed: nat)

  datatype Phase =
    | Ready
    | Claimed(task: nat)
    | Updated(task: nat)
    | Committed
    | FoundNone
    | Returned
    | Failed

  /** A worker and its local counter, as runWorker would return it. */
  datatype Worker = Worker(phase: Phase, processed: nat)

  /** `uncounted` is history: tasks committed by workers that failed before counting them. */
  datatype Pool = Pool(tasks: map<nat, Task>, workers: map<nat, Worker>, uncounted: nat)

  datatype Action =
    | Claim(w: nat, task: Option<nat>)
    | Update(w: nat)
    | Commit(w: nat)
    | Count(w: nat)
    | Poll(w: nat)
    | Fail(w: nat)
    | AddTask(t: nat)

  predicate Holds(worker: Worker, t: nat) {
    worker.phase == Claimed(t) || worker.phase == Updated(t)
  }

  ghost predicate Free(s: Pool, t: nat) {
    t in s.tasks && s.tasks[t].status.Pending? && forall w | w in s.workers :: !Holds(s.workers[w], t)
  }

  predicate NothingPending(s: Pool) {
    forall t | t in s.tasks :: s.tasks[t].status.Done?
  }

  predicate Active(worker: Worker) {
    !worker.phase.Returned? && !worker.phase.Failed?
  }

  ghost predicate Enabled(s: Pool, a: Action) {
    match a
    case Claim(w, task) =>
      w in s.workers && s.workers[w].phase.Ready? &&
      (match task
       case Some(t) => Free(s, t) && forall u | u in s.tasks && Free(s, u) :: t <= u
       case None => forall t | t in s.tasks :: !Free(s, t))
    case Update(w) => w in s.workers && s.workers[w].phase.Claimed?
    case Commit(w) => w in s.workers && s.workers[w].phase.Updated? && s.workers[w].phase.task in s.tasks
    case Count(w) => w in s.workers && s.workers[w].phase.Committed?
    case Poll(w) => w in s.workers && s.workers[w].phase.FoundNone?
    case Fail(w) => w in s.workers && Active(s.workers[w])
    case AddTask(t) => t !in s.tasks
  }

  function Move(s: Pool, w: nat, worker: Worker): Pool {
    s.(workers := s.workers[w := worker])
  }

  function Finish(task: Task): Task {
    Task(Done, task.processed + 1)
  }

  ghost function Apply(s: Pool, a: Action): Pool
    requires Enabled(s, a)
  {
    match a
    case Claim(w, task) =>
      Move(s, w, s.workers[w].(phase := if task.Some? then Claimed(task.value) else FoundNone))
    case Update(w) => Move(s, w, s.workers[w].(phase := Updated(s.workers[w].phase.task)))
    case Commit(w) =>
      var t := s.workers[w].phase.task;
      Move(s, w, s.workers[w].(phase := Committed)).(tasks := s.tasks[t := Finish(s.tasks[t])])
    case Count(w) => Move(s, w, Worker(Ready, s.workers[w].processed + 1))
    case Poll(w) => Move(s, w, s.workers[w].(phase := if NothingPending(s) then Returned else Ready))
    case Fail(w) =>
      Move(s, w, s.workers[w].(phase := Failed))
      .(uncounted := s.uncounted + if s.workers[w].phase.Committed? then 1 else 0)
    case AddTask(t) => s.(tasks := s.tasks[t := Task(Pending, 0)])
  }

  ghost predicate Valid(s: Pool, acts: seq<Action>)
    decreases |acts|
  {
    acts == [] || (Enabled(s, acts[0]) && Valid(Apply(s, acts[0]), acts[1..]))
  }

  ghost function Run(s: Pool, acts: seq<Action>): Pool
    requires Valid(s, acts)
    decreases |acts|
  {
    if acts == [] then s else Run(Apply(s, acts[0]), acts[1..])
  }

  /** Every task has just been reset, every worker is about to start. */
  ghost predicate Init(s: Pool) {
    && (forall t | t in s.tasks :: s.tasks[t] == Task(Pending, 0))
    && (forall w | w in s.workers :: s.workers[w] == Worker(Ready, 0))
    && s.uncounted == 0
  }

  // ---- Invariant ----

  predicate Holding(worker: Worker) {
    worker.phase.Claimed? || worker.phase.Updated?
  }

  ghost predicate Exclusive(a: Worker, b: Worker) {
    Holding(a) && Holding(b) ==> a.phase.task != b.phase.task
  }

  ghost function DoneTasks(s: Pool): set<nat> {
    set t | t in s.tasks && s.tasks[t].status.Done?
  }

  function Earned(worker: Worker): int {
    worker.processed + if worker.phase.Committed? then 1 else 0
  }

  function Counted(worker: Worker): int {
    worker.processed
  }

  ghost predicate ClaimsInv(s: Pool) {
    && (forall t | t in s.tasks :: s.tasks[t] == Task(Pending, 0) || s.tasks[t] == Task(Done, 1))
    && (forall w | w in s.workers && Holding(s.workers[w]) ::
          s.workers[w].phase.task in s.tasks && s.tasks[s.workers[w].phase.task].status.Pending?)
    && (forall v, w {:trigger Exclusive(s.workers[v], s.workers[w])} | v in s.workers && w in s.workers && v != w ::
          Exclusive(s.workers[v], s.workers[w]))
  }

  ghost predicate CountInv(s: Pool) {
    && Total(s.workers, Earned) + s.uncounted == |DoneTasks(s)|
    && (s.uncounted > 0 ==> exists w :: w in s.workers && s.workers[w].phase.Failed?)
  }

  ghost predicate Inv(s: Pool) {
    ClaimsInv(s) && CountInv(s)
  }

  lemma {:induction false} NothingEarnedYet(workers: map<nat, Worker>)
    requires forall w | w in workers :: workers[w] == Worker(Ready, 0)
    ensures Total(workers, Earned) == 0
    decreases |workers|
  {
    if |workers| != 0 {
      NothingEarnedYet(workers - {PickKey(workers)});
    }
  }

  lemma InitInv(s: Pool)
    requires Init(s)
    ensures Inv(s)
  {
    NothingEarnedYet(s.workers);
    assert DoneTasks(s) == {};
  }

  lemma ClaimsInvStep(s: Pool, a: Action)
    requires ClaimsInv(s) && Enabled(s, a)
    ensures ClaimsInv(Apply(s, a))
  {
    var s' := Apply(s, a);
    forall v, w | v in s'.workers && w in s'.workers && v != w ensures Exclusive(s'.workers[v], s'.workers[w]) {
      assert Exclusive(s.workers[v], s.workers[w]);
    }
    forall v | v in s'.workers && Holding(s'.workers[v])
      ensures s'.workers[v].phase.task in s'.tasks && s'.tasks[s'.workers[v].phase.task].status.Pending?
    {
      if a.Commit? {
        assert Exclusive(s.workers[v], s.workers[a.w]);
      }
    }
  }

  lemma DoneTasksStep(s: Pool, a: Action)
    requires ClaimsInv(s) && Enabled(s, a)
    ensures |DoneTasks(Apply(s, a))| == |DoneTasks(s)| + if a.Commit? then 1 else 0
  {
    if a.Commit? {
      assert DoneTasks(Apply(s, a)) == DoneTasks(s) + {s.workers[a.w].phase.task};
    } else {
      assert DoneTasks(Apply(s, a)) == DoneTasks(s);
    }
  }

  lemma CountInvStep(s: Pool, a: Action)
    requires ClaimsInv(s) && CountInv(s) && Enabled(s, a)
    ensures CountInv(Apply(s, a))
  {
    var s' := Apply(s, a);
    DoneTasksStep(s, a);
    if !a.AddTask? {
      TotalSet(s.workers, Earned, a.w, s'.workers[a.w]);
      if w :| w in s.workers && s.workers[w].phase.Failed? {
        assert w in s'.workers && s'.workers[w].phase.Failed?;
      } else if a.Fail? {
        assert s'.workers[a.w].phase.Failed?;
      }
    }
  }

  lemma InvStep(s: Pool, a: Action)
    requires Inv(s) && Enabled(s, a)
    ensures Inv(Apply(s, a))
  {
    ClaimsInvStep(s, a);
    CountInvStep(s, a);
  }

  lemma {:induction false} InvRun(s: Pool, acts: seq<Action>)
    requires Inv(s) && Valid(s, acts)
    ensures Inv(Run(s, acts))
    decreases |acts|
  {
    if acts != [] {
      InvStep(s, acts[0]);
      InvRun(Apply(s, acts[0]), acts[1..]);
    }
  }

  ghost predicate Reachable(s: Pool) {
    exists init, acts :: Init(init) && Valid(init, acts) && s == Run(init, acts)
  }

  lemma ReachableInv(s: Pool)
    requires Reachable(s)
    ensures Inv(s)
  {
    var init, acts :| Init(init) && Valid(init, acts) && s == Run(init, acts);
    InitInv(init);
    InvRun(init, acts);
  }

  // ---- What the pool promises ----

  /** No task is held by two workers, and every task is (pending, 0) or (done, 1): never processed twice. */
  lemma ProcessedExactlyOnce(s: Pool, t: nat, v: nat, w: nat)
    requires Reachable(s) && t in s.tasks
    ensures s.tasks[t] == Task(Pending, 0) || s.tasks[t] == Task(Done, 1)
    ensures v in s.workers && w in s.workers && Holds(s.workers[v], t) && Holds(s.workers[w], t) ==>
              v == w && s.tasks[t].status.Pending?
  {
    ReachableInv(s);
    assert v in s.workers && w in s.workers && v != w ==> Exclusive(s.workers[v], s.workers[w]);
  }

  /** A claim takes the first pending task that no other worker holds: those before it are done or held, and when none
      is taken all are. */
  lemma ClaimsInOrder(s: Pool, w: nat, task: Option<nat>, u: nat)
    requires Enabled(s, Claim(w, task)) && u in s.tasks && s.tasks[u].status.Pending?
    requires task.Some? ==> u < task.value
    ensures exists v :: v in s.workers && Holding(s.workers[v]) && s.workers[v].phase.task == u
    ensures task.Some? ==>
              && task.value in s.tasks && s.tasks[task.value].status.Pending?
              && forall v | v in s.workers && Holding(s.workers[v]) :: s.workers[v].phase.task != task.value
  {
    assert !Free(s, u);
    if task.Some? {
      forall v | v in s.workers && Holding(s.workers[v]) ensures s.workers[v].phase.task != task.value {
        assert !Holds(s.workers[v], task.value);
      }
    }
  }

  /** The workers' counters never exceed the done tasks, and add up to them when all have come to rest unharmed. */
  lemma CountersMatchDoneTasks(s: Pool)
    requires Reachable(s)
    ensures Total(s.workers, Counted) <= |DoneTasks(s)|
    ensures (forall w | w in s.workers :: !s.workers[w].phase.Failed? && !s.workers[w].phase.Committed?) ==>
              Total(s.workers, Counted) == |DoneTasks(s)|
  {
    ReachableInv(s);
    CountedAtMostEarned(s.workers);
  }

  lemma {:induction false} CountedAtMostEarned(workers: map<nat, Worker>)
    ensures Total(workers, Counted) <= Total(workers, Earned)
    ensures (forall w | w in workers :: !workers[w].phase.Committed?) ==>
            Total(workers, Counted) == Total(workers, Earned)
    decreases |workers|
  {
    if |workers| != 0 {
      CountedAtMostEarned(workers - {PickKey(workers)});
    }
  }

  /** A worker returns only when every task is done - also those another worker held a moment ago - so no claim
      that is rolled back elsewhere is ever left behind. */
  lemma ReturnsOnlyWhenAllDone(s: Pool, w: nat)
    requires Reachable(s) && Enabled(s, Poll(w)) && Apply(s, Poll(w)).workers[w].phase.Returned?
    ensures NothingPending(s) && forall v | v in s.workers :: !Holding(s.workers[v])
    ensures |DoneTasks(s)| == |s.tasks|
  {
    ReachableInv(s);
    assert DoneTasks(s) == s.tasks.Keys;
    assert |s.tasks.Keys| == |s.tasks|;
  }

  ghost predicate SomeReturned(s: Pool) {
    exists w :: w in s.workers && s.workers[w].phase.Returned?
  }

  ghost predicate NoNewTasks(acts: seq<Action>) {
    forall i | 0 <= i < |acts| :: !acts[i].AddTask?
  }

  lemma {:induction false} ReturnedMeansDone(s: Pool, acts: seq<Action>)
    requires Inv(s) && (SomeReturned(s) ==> NothingPending(s))
    requires Valid(s, acts) && NoNewTasks(acts)
    ensures SomeReturned(Run(s, acts)) ==> NothingPending(Run(s, acts))
    decreases |acts|
  {
    if acts != [] {
      InvStep(s, acts[0]);
      var s' := Apply(s, acts[0]);
      if SomeReturned(s') && !SomeReturned(s) {
        var w :| w in s'.workers && s'.workers[w].phase.Returned?;
        assert acts[0] == Poll(w);
      }
      ReturnedMeansDone(s', acts[1..]);
    }
  }

  /** Over a whole run of the demo (no tasks added): once any worker has returned, every task is done for good. */
  lemma PoolFinishesEverything(init: Pool, acts: seq<Action>)
    requires Init(init) && Valid(init, acts) && NoNewTasks(acts) && SomeReturned(Run(init, acts))
    ensures NothingPending(Run(init, acts))
    ensures forall t | t in Run(init, acts).tasks :: Run(init, acts).tasks[t] == Task(Done, 1)
  {
    InitInv(init);
    InvRun(init, acts);
    ReturnedMeansDone(init, acts);
  }

  // ---- One worker with the pool to itself ----

  ghost function PendingIn(tasks: map<nat, Task>): set<nat> {
    set t | t in tasks && tasks[t].status.Pending?
  }

  lemma FinishedLeavesPending(tasks: map<nat, Task>, t: nat)
    requires t in tasks
    ensures PendingIn(tasks[t := Finish(tasks[t])]) == PendingIn(tasks) - {t}
  {
  }

  class TaskTable {
    var tasks: map<nat, Task>

    ghost function PendingTasks(): set<nat>
      reads this
    {
      PendingIn(tasks)
    }

    method FirstPending() returns (first: Option<nat>)
      ensures first.None? <==> PendingTasks() == {}
      ensures first.Some? ==> first.value in PendingTasks() && forall t | t in PendingTasks() :: first.value <= t
    {
      var rest := tasks.Keys;
      first := None;
      while rest != {}
        invariant rest <= tasks.Keys
        invariant first.None? ==> forall t | t in PendingTasks() :: t in rest
        invariant first.Some? ==> first.value in PendingTasks() && forall t | t in PendingTasks() &&
                  t !in rest :: first.value <= t
        decreases rest
      {
        var t :| t in rest;
        rest := rest - {t};
        if tasks[t].status.Pending? && (first.None? || t < first.value) {
          first := Some(t);
        }
      }
    }

    method ClaimAndProcessTask() returns (handled: bool)
      modifies this
      ensures handled <==> old(PendingTasks()) != {}
      ensures !handled ==> tasks == old(tasks)
      ensures handled ==> exists t :: t in old(PendingTasks()) && (forall u | u in old(PendingTasks()) :: t <= u) &&
                                      tasks == old(tasks)[t := Finish(old(tasks)[t])]
    {
      var task := FirstPending();
      if task.None? {
        return false;
      }
      tasks := tasks[task.value := Finish(tasks[task.value])];
      return true;
    }

    method HasPendingTasks() returns (pending: bool)
      ensures pending <==> PendingTasks() != {}
    {
      var first := FirstPending();
      pending := first.Some?;
    }

    /** The loop of runWorker: every task pending at the start is processed exactly once, and the counter says so. */
    method RunWorker() returns (processed: nat)
      modifies this
      ensures processed == |old(PendingTasks())| && PendingTasks() == {}
      ensures tasks == map t | t in old(tasks) :: if t in old(PendingTasks()) then Finish(old(tasks)[t])
              else old(tasks)[t]
    {
      processed := 0;
      while true
        invariant PendingTasks() <= old(PendingTasks())
        invariant processed + |PendingTasks()| == |old(PendingTasks())|
        invariant tasks == map t | t in old(tasks) ::
                    if t in old(PendingTasks()) && t !in PendingTasks() then Finish(old(tasks)[t]) else old(tasks)[t]
        decreases |PendingTasks()|
      {
        ghost var before := PendingTasks();
        ghost var was := tasks;
        var handled := ClaimAndProcessTask();
        if handled {
          ghost var t :| t in before && tasks == was[t := Finish(was[t])];
          FinishedLeavesPending(was, t);
          processed := processed + 1;
          continue;
        }
        var pending := HasPendingTasks();
        if !pending {
          break;
        }
      }
    }
  }
}
