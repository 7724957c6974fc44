/** A worker's run ends, whatever the interleaving: its own steps use up a bounded effort, nobody
    else's add to it, one of its steps is always possible, and it leaves nothing behind. */
module WorkerProgress {
  import opened Tables
  import opened TargetKeys
  import opened Archive
  import opened Store
  import opened GenerationSafety
  import opened SafetyInvariant
  import opened WorkSteps
  import opened SafetyTheorems
  import opened Guarantees

  function PendingOf(items: map<int, Item>, job: int): set<int> {
    set i | i in items && items[i].jobId == job && items[i].status == Pending
  }

  function TasksAt(items: map<int, Item>, tasks: map<int, TaskPc>, job: int, pc: TaskPc): set<int> {
    set i | i in tasks && i in items && items[i].jobId == job && tasks[i] == pc
  }

  function PhaseEffort(p: Phase): nat {
    match p
    case Scheduled => 4
    case Loaded => 3
    case Claiming => 2
    case Draining => 1
  }

  function ItemEffort(items: map<int, Item>, tasks: map<int, TaskPc>, job: int): nat {
    4 * |PendingOf(items, job)| + 3 * |TasksAt(items, tasks, job, Queued)|
    + 2 * |TasksAt(items, tasks, job, Generating)| + |TasksAt(items, tasks, job, Settled)|
  }

  /** Steps the worker of `job` still has to take; 0 once it is gone. */
  function Effort(s: State, job: int): nat {
    if s.live.Up? && job in s.live.workers then
      PhaseEffort(s.live.workers[job].phase) + ItemEffort(s.db.items.rows, s.live.tasks, job)
    else 0
  }

  /** A step of `job`'s worker or of one of its item tasks. */
  predicate WorkerStep(s: State, a: Action, job: int) {
    match a
    case Load(j) => j == job
    case LearnLimit(j, _, _) => j == job
    case EndClaims(j) => j == job
    case Finish(j) => j == job
    case Claim(i) => i in s.db.items.rows && s.db.items.rows[i].jobId == job
    case Begin(i) => i in s.db.items.rows && s.db.items.rows[i].jobId == job
    case Settle(i, _) => i in s.db.items.rows && s.db.items.rows[i].jobId == job
    case Free(i) => i in s.db.items.rows && s.db.items.rows[i].jobId == job
    case _ => false
  }

  // ------------------------------------------------------------------ steps use up effort

  /** The same items by id, job and waiting status. */
  ghost predicate SamePlaces(items: map<int, Item>, later: map<int, Item>) {
    && (forall k :: k in later <==> k in items)
    && (forall k :: k in items ==> later[k].jobId == items[k].jobId && (later[k].status == Pending <==> items[k].status == Pending))
  }

  lemma TaskMoved(items: map<int, Item>, later: map<int, Item>, tasks: map<int, TaskPc>, i: int, pc: TaskPc, job: int, q: TaskPc)
    requires SamePlaces(items, later) && i in items && items[i].jobId == job && i in tasks && tasks[i] != pc
    ensures TasksAt(later, tasks[i := pc], job, q) ==
      if q == pc then TasksAt(items, tasks, job, q) + {i} else TasksAt(items, tasks, job, q) - {i}
    ensures i in TasksAt(items, tasks, job, q) <==> q == tasks[i]
  {
    var moved := if q == pc then TasksAt(items, tasks, job, q) + {i} else TasksAt(items, tasks, job, q) - {i};
    forall k: int ensures k in TasksAt(later, tasks[i := pc], job, q) <==> k in moved {
    }
  }

  lemma PendingStays(items: map<int, Item>, later: map<int, Item>, job: int)
    requires SamePlaces(items, later)
    ensures PendingOf(later, job) == PendingOf(items, job)
  {
    forall k: int ensures k in PendingOf(later, job) <==> k in PendingOf(items, job) {
    }
  }

  lemma TaskMoves(items: map<int, Item>, later: map<int, Item>, tasks: map<int, TaskPc>, i: int, pc: TaskPc, job: int)
    requires SamePlaces(items, later) && i in items && items[i].jobId == job && i in tasks
    requires tasks[i] == Queued ==> pc == Generating
    requires tasks[i] == Generating ==> pc == Settled
    requires tasks[i] == Settled ==> pc == Finished
    requires tasks[i] != Finished
    ensures ItemEffort(later, tasks[i := pc], job) < ItemEffort(items, tasks, job)
  {
    PendingStays(items, later, job);
    TaskMoved(items, later, tasks, i, pc, job, Queued);
    TaskMoved(items, later, tasks, i, pc, job, Generating);
    TaskMoved(items, later, tasks, i, pc, job, Settled);
    hide TasksAt, PendingOf, SamePlaces;
  }

  lemma ClaimMoves(items: map<int, Item>, tasks: map<int, TaskPc>, i: int, later: Item, job: int)
    requires i in items && items[i].jobId == job && items[i].status == Pending && i !in tasks
    requires SameWork(items[i], later) && later.status == Running
    ensures ItemEffort(items[i := later], tasks[i := Queued], job) < ItemEffort(items, tasks, job)
  {
    var laterItems, laterTasks := items[i := later], tasks[i := Queued];
    assert PendingOf(laterItems, job) == PendingOf(items, job) - {i};
    assert TasksAt(laterItems, laterTasks, job, Queued) == TasksAt(items, tasks, job, Queued) + {i};
    assert TasksAt(laterItems, laterTasks, job, Generating) == TasksAt(items, tasks, job, Generating);
    assert TasksAt(laterItems, laterTasks, job, Settled) == TasksAt(items, tasks, job, Settled);
  }

  lemma NoTaskWhilePending(env: Env, s: State, i: int)
    requires Inv(env, s) && s.live.Up? && i in s.db.items.rows && s.db.items.rows[i].status == Pending
    ensures i !in s.live.tasks
  {
    hide Stored, LeasesOk, WorkersOk, ActsOk, PrepsOk, BusyOk;
  }

  /** Every step of a worker that does something brings it closer to its end. */
  lemma WorkerStepsUseEffort(env: Env, s: State, a: Action, job: int)
    requires Reachable(env, s) && s.live.Up? && job in s.live.workers && WorkerStep(s, a, job)
    requires Apply(env, s, a) != s
    ensures Effort(Apply(env, s, a), job) < Effort(s, job)
  {
    hide Inv, Reachable, ItemEffort, StillMatches, AllMatch, SetupOk, AnyPending, AllFinished, HasUnfinished, CancelAndRelease, Table.Valid;
    hide ItemKey, CompleteItem, TasksOf;
    ReachableInv(env, s);
    EntriesTableValid(env, s);
    match a {
      case Claim(i) =>
        NoTaskWhilePending(env, s, i);
        ClaimMoves(s.db.items.rows, s.live.tasks, i, s.db.items.rows[i].(status := Running), job);
      case Begin(i) => TaskMoves(s.db.items.rows, s.db.items.rows, s.live.tasks, i, Generating, job);
      case Settle(i, text) => SettleMoves(env, s, i, text, job);
      case Free(i) => TaskMoves(s.db.items.rows, s.db.items.rows, s.live.tasks, i, Finished, job);
      case _ =>
    }
  }

  lemma SettleMoves(env: Env, s: State, i: int, text: Option<string>, job: int)
    requires Inv(env, s) && s.live.Up? && job in s.live.workers && i in s.db.items.rows && s.db.items.rows[i].jobId == job
    requires DoSettle(env, s, i, text) != s
    ensures Effort(DoSettle(env, s, i, text), job) < Effort(s, job)
  {
    hide Inv, ItemEffort, StillMatches, ResultTable, PruneOthers;
    GeneratingItem(env, s, i);
    TaskMoves(s.db.items.rows, DoSettle(env, s, i, text).db.items.rows, s.live.tasks, i, Settled, job);
  }

  // ------------------------------------------------------------------ nobody else adds effort

  lemma OnlyWorker(env: Env, s: State, job: int)
    requires Inv(env, s) && s.live.Up? && job in s.live.workers
    ensures s.live.workers.Keys == {job} && s.db.entries.Valid()
    ensures job in s.db.jobs.rows && s.db.jobs.rows[job].status == JobRunning
    ensures forall i :: i in s.live.tasks ==> i in s.db.items.rows && s.db.items.rows[i].jobId == job
  {
    hide PromptsValid, ResultsValid, JobsOk, ItemsOk, BaselinesOk, TargetsDistinct, HistoryOrdered, HistoryOk, ChatOk;
    hide LeasesOk, ActsOk, PrepsOk, BusyOk, Table.Valid;
    var jobs, workers := s.db.jobs.rows, s.live.workers;
    assert job in jobs && jobs[job].status == JobRunning;
    forall j: int | j in workers ensures j == job {
      assert j in jobs && jobs[j].status == JobRunning;
    }
    forall i: int | i in s.live.tasks ensures i in s.db.items.rows && s.db.items.rows[i].jobId == job {
      assert s.db.items.rows[i].jobId in workers;
    }
    forall j ensures j in workers.Keys <==> j in {job} {
    }
  }

  /** Same items, workers and tasks. */
  predicate SameWorkload(s: State, later: State) {
    && s.live.Up? && later.live.Up? && later.db.items == s.db.items
    && later.live.workers == s.live.workers && later.live.tasks == s.live.tasks
  }

  lemma OthersRoutes(env: Env, s: State, a: Action)
    requires s.live.Up? && s.db.entries.Valid()
    requires a.ApplyPrompt? || a.StartReport? || a.SaveReport? || a.StartTurn? || a.Ask? || a.Answer? || a.StartRequest? || a.HandOff? || a.Release?
          || a.RemoveSession? || a.PrepareOne? || a.PrepareAll? || a.AddEntry? || a.Lock? || a.Unlock? || a.Restart?
    ensures SameWorkload(s, ApplyOnline(env, s, a))
  {
    hide OrderedIds, PreparedTarget, PreparedAll, Resolve, ThreadExists, Idle, Recover, Table.Valid, DoRestart;
    hide DoHandOff, DoStartTurn, DoPrepareAll;
    HardRoutes(env, s, a);
  }

  /** The three routes with most branches. */
  lemma HardRoutes(env: Env, s: State, a: Action)
    requires s.live.Up? && s.db.entries.Valid()
    ensures a.HandOff? ==> SameWorkload(s, DoHandOff(s, a.act, a.title, a.text))
    ensures a.StartTurn? ==> SameWorkload(s, DoStartTurn(s, a.thread))
    ensures a.PrepareAll? ==> SameWorkload(s, DoPrepareAll(env, s, a.draft))
  {
    hide OrderedIds, PreparedAll, Resolve, ThreadExists, Table.Valid, LeaseTable.HasId, LeaseTable.Rekey;
  }

  lemma OthersAdmissions(env: Env, s: State, a: Action, job: int)
    requires s.live.Up? && s.db.entries.Valid() && job in s.db.jobs.rows && s.db.jobs.rows[job].status == JobRunning
    requires a.Submit? || a.RetryItem?
    ensures SameWorkload(s, ApplyOnline(env, s, a))
  {
    hide OrderedIds, ClaimTargets, AddItems, NewerItem, Current;
  }

  /** No step of anybody else adds to a worker's effort, as long as the process lives. */
  lemma OthersAddNoEffort(env: Env, s: State, a: Action, job: int)
    requires Reachable(env, s) && s.live.Up? && job in s.live.workers
    requires !WorkerStep(s, a, job) && !a.Crash?
    ensures Effort(Apply(env, s, a), job) == Effort(s, job)
  {
    hide Inv, Reachable, ItemEffort, Table.Valid, Enqueue, Retry;
    ReachableInv(env, s);
    OnlyWorker(env, s, job);
    if a.Submit? || a.RetryItem? {
      OthersAdmissions(env, s, a, job);
    } else if a.Load? || a.LearnLimit? || a.Claim? || a.EndClaims? || a.Begin? || a.Settle? || a.Free? || a.Finish? {
      NoOtherWorker(env, s, a, job);
    } else {
      OthersRoutes(env, s, a);
    }
  }

  lemma NoOtherWorker(env: Env, s: State, a: Action, job: int)
    requires s.live.Up? && s.db.entries.Valid() && s.live.workers.Keys == {job} && !WorkerStep(s, a, job)
    requires a.Load? || a.LearnLimit? || a.Claim? || a.EndClaims? || a.Begin? || a.Settle? || a.Free? || a.Finish?
    requires forall i :: i in s.live.tasks ==> i in s.db.items.rows && s.db.items.rows[i].jobId == job
    ensures ApplyOnline(env, s, a) == s
  {
    hide Refuse, SetupOk, AllMatch, AnyPending, StillMatches, CompleteItem, AllFinished, HasUnfinished;
    forall j: int | j in s.live.workers ensures j == job {
      assert j in s.live.workers.Keys;
    }
  }

  // ------------------------------------------------------------------ never stuck

  /** A live worker can always take a step, if at least one item may generate at a time. */
  lemma WorkerNeverStuck(env: Env, s: State, job: int) returns (a: Action)
    requires Reachable(env, s) && s.live.Up? && job in s.live.workers && env.concurrency > 0
    ensures WorkerStep(s, a, job) && Apply(env, s, a) != s
  {
    hide Inv, Reachable, StillMatches, AllMatch, SetupOk, AnyPending, AllFinished, HasUnfinished, CancelAndRelease, Table.Valid;
    hide ItemKey, CompleteItem, TasksOf, BusyTasks;
    ReachableInv(env, s);
    OnlyWorker(env, s, job);
    match s.live.workers[job].phase {
      case Scheduled => a := Load(job);
      case Loaded => a := LearnLimit(job, true, true);
      case Claiming => a := ClaimingMoves(env, s, job);
      case Draining => a := DrainingMoves(env, s, job);
    }
  }

  lemma ClaimingMoves(env: Env, s: State, job: int) returns (a: Action)
    requires s.live.Up? && s.db.entries.Valid() && job in s.live.workers && s.live.workers[job].phase == Claiming
    ensures WorkerStep(s, a, job) && Apply(env, s, a) != s
  {
    if i :| i in s.db.items.rows && s.db.items.rows[i].jobId == job && s.db.items.rows[i].status == Pending {
      a := Claim(i);
      assert Apply(env, s, a).db.items.rows[i].status == Running;
    } else {
      a := EndClaims(job);
      assert Apply(env, s, a).live.workers[job].phase == Draining;
    }
  }

  lemma FreeMoves(env: Env, s: State, i: int)
    requires s.live.Up? && s.db.entries.Valid() && i in s.live.tasks && s.live.tasks[i] == Settled && i in s.db.items.rows
    ensures Apply(env, s, Free(i)) != s
  {
    hide Table.Valid, ItemKey;
    assert Apply(env, s, Free(i)).live.tasks[i] == Finished;
  }

  lemma SettlingMoves(env: Env, s: State, i: int)
    requires s.live.Up? && s.db.entries.Valid() && i in s.live.tasks && s.live.tasks[i] == Generating && i in s.db.items.rows
    requires s.db.items.rows[i].jobId in s.live.workers && s.db.items.rows[i].jobId in s.db.jobs.rows
    ensures Apply(env, s, Settle(i, None)) != s
  {
    hide Table.Valid, StillMatches, CompleteItem, FailItem;
    assert Apply(env, s, Settle(i, None)).live.tasks[i] == Settled;
  }

  lemma BeginMoves(env: Env, s: State, i: int)
    requires s.live.Up? && s.db.entries.Valid() && i in s.live.tasks && s.live.tasks[i] == Queued && i in s.db.items.rows
    requires env.concurrency > 0 && forall k :: k in s.live.tasks ==> !Busy(s.live.tasks[k])
    ensures Apply(env, s, Begin(i)) != s
  {
    NobodyBusy(s.db.items.rows, s.live.tasks, s.db.items.rows[i].jobId);
    hide Table.Valid, BusyTasks, Busy;
    assert Apply(env, s, Begin(i)).live.tasks[i] == Generating;
  }

  lemma FinishMoves(env: Env, s: State, job: int)
    requires s.live.Up? && s.db.entries.Valid() && job in s.live.workers && s.live.workers[job].phase == Draining && job in s.db.jobs.rows
    requires forall i :: i in s.live.tasks ==> s.live.tasks[i] == Finished
    ensures Apply(env, s, Finish(job)) != s
  {
    assert AllFinished(s, job);
    hide Table.Valid, AllFinished, HasUnfinished, TasksOf;
    assert job !in Apply(env, s, Finish(job)).live.workers;
  }

  lemma ItsOwnStep(s: State, a: Action, i: int, job: int)
    requires a == Finish(job) || ((a == Free(i) || a == Settle(i, None) || a == Begin(i)) && i in s.db.items.rows && s.db.items.rows[i].jobId == job)
    ensures WorkerStep(s, a, job)
  {
  }

  lemma DrainingMoves(env: Env, s: State, job: int) returns (a: Action)
    requires s.live.Up? && s.db.entries.Valid() && job in s.live.workers && s.live.workers[job].phase == Draining
    requires job in s.db.jobs.rows && env.concurrency > 0
    requires forall i :: i in s.live.tasks ==> i in s.db.items.rows && s.db.items.rows[i].jobId == job
    ensures WorkerStep(s, a, job) && Apply(env, s, a) != s
  {
    hide Apply, Table.Valid, WorkerStep;
    if i :| i in s.live.tasks && s.live.tasks[i] == Settled {
      a := Free(i);
      ItsOwnStep(s, a, i, job);
      FreeMoves(env, s, i);
    } else if i :| i in s.live.tasks && s.live.tasks[i] == Generating {
      a := Settle(i, None);
      ItsOwnStep(s, a, i, job);
      SettlingMoves(env, s, i);
    } else if i :| i in s.live.tasks && s.live.tasks[i] == Queued {
      a := Begin(i);
      ItsOwnStep(s, a, i, job);
      BeginMoves(env, s, i);
    } else {
      a := Finish(job);
      ItsOwnStep(s, a, 0, job);
      FinishMoves(env, s, job);
    }
  }

  lemma NobodyBusy(items: map<int, Item>, tasks: map<int, TaskPc>, job: int)
    requires forall i :: i in tasks ==> !Busy(tasks[i])
    ensures BusyTasks(items, tasks, job) == {}
  {
    forall i: int ensures i !in BusyTasks(items, tasks, job) {
    }
  }

  /** From every reachable state with a worker at work, the worker's own steps lead to its end. */
  lemma WorkerCanFinish(env: Env, s: State, job: int) returns (actions: seq<Action>)
    requires Reachable(env, s) && s.live.Up? && job in s.live.workers && env.concurrency > 0
    ensures var after := Run(env, s, actions);
      Reachable(env, after) && after.live.Up? && job !in after.live.workers
    ensures |actions| <= Effort(s, job)
    decreases Effort(s, job)
  {
    hide Inv, Reachable, Apply, Effort, WorkerStep;
    var a := WorkerNeverStuck(env, s, job);
    WorkerStepsUseEffort(env, s, a, job);
    ReachableStep(env, s, a);
    var next := Apply(env, s, a);
    WorkerStepKeepsUp(env, s, a, job);
    if job in next.live.workers {
      var rest := WorkerCanFinish(env, next, job);
      RunAfter(env, s, a, rest);
      actions := [a] + rest;
    } else {
      actions := [a];
      assert [a][..0] == [];
    }
  }

  lemma WorkerStepKeepsUp(env: Env, s: State, a: Action, job: int)
    requires s.live.Up? && WorkerStep(s, a, job)
    ensures Apply(env, s, a).live.Up?
  {
    hide SetupOk, AllMatch, AnyPending, StillMatches, CompleteItem, AllFinished, HasUnfinished, CancelAndRelease;
  }

  lemma {:induction false} RunAfter(env: Env, s: State, a: Action, rest: seq<Action>)
    ensures Run(env, s, [a] + rest) == Run(env, Apply(env, s, a), rest)
  {
    hide Apply;
    if rest == [] {
      assert [a] + rest == [a] && [a][..0] == [];
    } else {
      var n := |rest| - 1;
      RunAfter(env, s, a, rest[..n]);
      assert ([a] + rest)[..n + 1] == [a] + rest[..n];
    }
  }

  // ------------------------------------------------------------------ what a worker leaves behind

  /** Outside a running job every item is ok or failed, and no lease is held for any of its items. */
  lemma EndedJobsHoldNothing(env: Env, s: State, j: int, i: int)
    requires Reachable(env, s) && s.live.Up? && j in s.db.jobs.rows && s.db.jobs.rows[j].status != JobRunning
    requires i in s.db.items.rows && s.db.items.rows[i].jobId == j
    ensures s.db.items.rows[i].status == Ok || s.db.items.rows[i].status == Failed
    ensures forall k :: k in s.db.leases.rows ==> s.db.leases.rows[k].holder != ForItem(i)
  {
    hide EntriesValid, PromptsValid, ResultsValid, JobsOk, OneRunning, BaselinesOk, TargetsDistinct, HistoryOrdered, HistoryOk, ChatOk;
    hide ItemsHold, ActsHold, ActsOk, PrepsOk, BusyOk, ItemGood, Reachable, ItemKey;
    ReachableInv(env, s);
    assert j !in s.live.workers;
    assert !Settling(s.live.tasks, i);
    forall k | k in s.db.leases.rows ensures s.db.leases.rows[k].holder != ForItem(i) {
      assert HolderOk(k, s.db.leases.rows[k], s.db.items.rows, s.live.acts, s.live.tasks);
    }
  }

  /** A worker that finishes leaves its job done: the final check for unfinished items always finds
      none. */
  lemma FinishedWorkerLeavesJobDone(env: Env, s: State, job: int)
    requires Reachable(env, s) && s.live.Up? && Apply(env, s, Finish(job)) != s
    ensures var after := Apply(env, s, Finish(job));
      && after.live.Up? && job !in after.live.workers && job in after.db.jobs.rows
      && after.db.jobs.rows[job].status == JobDone
      && after.db.items == s.db.items && after.db.leases == s.db.leases
      && !HasUnfinished(after.db.items, job)
  {
    hide Stored, LeasesOk, WorkersOk, ActsOk, PrepsOk, BusyOk, HasUnfinished, AllFinished, Reachable;
    ReachableInv(env, s);
    EntriesTableValid(env, s);
    NothingLeft(s, job);
  }

  /** At most `concurrency` items of a job generate at a time. */
  lemma ConcurrencyRespected(env: Env, s: State, job: int)
    requires Reachable(env, s) && s.live.Up?
    ensures |BusyTasks(s.db.items.rows, s.live.tasks, job)| <= env.concurrency
  {
    hide Stored, LeasesOk, TasksOk, WorkersOk, ActsOk, PrepsOk, Reachable, BusyTasks;
    ReachableInv(env, s);
    assert BusyWithin(env.concurrency, s.db.items.rows, s.live.tasks, job);
  }
}
