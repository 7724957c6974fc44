/** `BatchWorker.run_job` as a program on the database: set up, claim every pending item, let the
    item tasks generate at most `concurrency` at a time in any order, finalize.

    Every execution is a run of the generation-safety protocol, so all its guarantees apply; what
    the execution comes to in the end is stated outright. */
module BatchWorker {
  import opened Tables
  import opened TargetKeys
  import opened Archive
  import opened Store
  import opened Database
  import opened GenerationSafety
  import opened SafetyInvariant
  import opened WorkSteps
  import opened SafetyTheorems
  import opened Guarantees
  import opened WorkerProgress

  /** What the caller of the model gets to see: the limit lookup and each item's generation. */
  datatype Model = Model(limitKnown: bool, admits: bool, texts: map<int, Option<string>>) {
    function Text(i: int): Option<string> {
      if i in texts then texts[i] else None
    }
  }

  /** How item i ends. */
  function Outcome(model: Model, i: int): ItemStatus {
    if model.limitKnown && model.Text(i).Some? then Ok else Failed
  }

  /** `s` is the protocol state this worker is in: same database, one worker, in this phase. */
  ghost predicate At(env: Env, s: State, db: Db, job: int, phase: Phase) {
    Reachable(env, s) && s.db == db && s.live.Up? && job in s.live.workers && s.live.workers[job].phase == phase
  }

  lemma JobFacts(env: Env, s: State, job: int)
    requires Reachable(env, s) && s.live.Up? && job in s.live.workers
    ensures job in s.db.jobs.rows && s.db.items.Valid() && s.db.entries.Valid()
    ensures s.db.jobs.rows[job].promptId in s.db.prompts.rows
    ensures SetupOk(s.db, job)
  {
    hide Reachable, Inv, SetupOk;
    ReachableInv(env, s);
    OnlyWorker(env, s, job);
    ItemsValid(env, s);
    SetupSucceeds(env, s, job);
    PromptOf(s.db, job);
  }

  lemma PromptOf(db: Db, job: int)
    requires SetupOk(db, job)
    ensures job in db.jobs.rows && db.jobs.rows[job].promptId in db.prompts.rows
  {
  }

  lemma ItemsValid(env: Env, s: State)
    requires Inv(env, s)
    ensures s.db.items.Valid()
  {
    hide Attended;
  }

  /** Task i of the job: generating means its item is running and still to be settled. */
  lemma TaskFacts(env: Env, s: State, job: int, i: int)
    requires Reachable(env, s) && s.live.Up? && job in s.live.workers && i in s.live.tasks && s.live.tasks[i] == Generating
    ensures i in s.db.items.rows && s.db.items.rows[i].jobId == job && s.db.items.rows[i].status == Running
    ensures job in s.db.jobs.rows && StillMatches(env, s.db, s.db.items.rows[i])
    ensures s.db.items.rows[i].targetType == AggregateReport ==> s.db.items.rows[i].entryId == None
    ensures forall row: ResultRow :: row.entryId == s.db.items.rows[i].entryId && row.promptId == s.db.jobs.rows[job].promptId ==>
      CompleteItem(s.db, i, s.db.items.rows[i].targetType, row).Some?
  {
    hide Reachable, Inv, StillMatches, ResultTable, PruneOthers;
    ReachableInv(env, s);
    OnlyWorker(env, s, job);
    GeneratingItem(env, s, i);
    InFlightTarget(env, s, i);
  }

  function RowOf(db: Db, i: int, text: string): ResultRow
    requires i in db.items.rows && db.items.rows[i].jobId in db.jobs.rows
  {
    var item := db.items.rows[i];
    ResultRow(if item.targetType == EntryCommentary then item.entryId else None, db.jobs.rows[item.jobId].promptId, true, text)
  }

  /** The two transactions of one item task, as protocol steps. */
  lemma SettleIs(env: Env, s: State, job: int, i: int, model: Model)
    requires Reachable(env, s) && s.live.Up? && job in s.live.workers && s.live.workers[job].limitKnown == model.limitKnown
    requires i in s.live.tasks && s.live.tasks[i] == Generating
    ensures i in s.db.items.rows && s.db.items.rows[i].jobId == job && job in s.db.jobs.rows
    ensures Outcome(model, i) == Ok ==> CompleteItem(s.db, i, s.db.items.rows[i].targetType, RowOf(s.db, i, model.Text(i).value)).Some?
    ensures var settled := Apply(env, s, Settle(i, model.Text(i)));
      && settled.live == s.live.(tasks := s.live.tasks[i := Settled])
      && settled.db == if Outcome(model, i) == Ok
                       then CompleteItem(s.db, i, s.db.items.rows[i].targetType, RowOf(s.db, i, model.Text(i).value)).value
                       else FailItem(s.db, i, "")
  {
    hide Reachable, StillMatches, CompleteItem, Table.Valid;
    JobFacts(env, s, job);
    TaskFacts(env, s, job, i);
  }

  lemma FreeIs(env: Env, s: State, i: int)
    requires s.live.Up? && s.db.entries.Valid() && i in s.live.tasks && s.live.tasks[i] == Settled && i in s.db.items.rows
    ensures Apply(env, s, Free(i)).db == ReleaseTarget(s.db, ItemKey(s.db.items.rows[i]))
    ensures Apply(env, s, Free(i)).live == s.live.(tasks := s.live.tasks[i := Finished])
  {
  }

  /** What completing or failing does to the job and item tables. */
  lemma SettledTables(db: Db, i: int, targetType: TargetType, row: ResultRow)
    requires i in db.items.rows
    ensures CompleteItem(db, i, targetType, row).Some? ==>
      && CompleteItem(db, i, targetType, row).value.jobs == db.jobs && CompleteItem(db, i, targetType, row).value.entries == db.entries
      && CompleteItem(db, i, targetType, row).value.leases == db.leases
      && i in CompleteItem(db, i, targetType, row).value.items.rows
      && var later := CompleteItem(db, i, targetType, row).value.items.rows[i];
         CompleteItem(db, i, targetType, row).value.items == db.items.Set(i, later) && SameWork(db.items.rows[i], later) && later.status == Ok
    ensures FailItem(db, i, "").jobs == db.jobs && FailItem(db, i, "").entries == db.entries && FailItem(db, i, "").leases == db.leases
    ensures i in FailItem(db, i, "").items.rows
    ensures var later := FailItem(db, i, "").items.rows[i];
      FailItem(db, i, "").items == db.items.Set(i, later) && SameWork(db.items.rows[i], later) && later.status == Failed
  {
  }

  lemma ClaimIs(env: Env, s: State, job: int, i: int)
    requires s.live.Up? && s.db.entries.Valid() && job in s.live.workers && s.live.workers[job].phase == Claiming
    requires i in s.db.items.rows && s.db.items.rows[i].jobId == job && s.db.items.rows[i].status == Pending
    ensures Apply(env, s, Claim(i)) == s.(db := ClaimItem(s.db, i), live := s.live.(tasks := s.live.tasks[i := Queued]))
  {
  }

  lemma EndClaimsIs(env: Env, s: State, job: int)
    requires s.live.Up? && s.db.entries.Valid() && job in s.live.workers && s.live.workers[job].phase == Claiming
    requires forall i :: i in s.db.items.rows && s.db.items.rows[i].jobId == job ==> s.db.items.rows[i].status != Pending
    ensures Apply(env, s, EndClaims(job)) ==
      s.(live := s.live.(workers := s.live.workers[job := s.live.workers[job].(phase := Draining)]))
  {
  }

  lemma BeginIs(env: Env, s: State, job: int, i: int, busy: set<int>)
    requires s.live.Up? && s.db.entries.Valid() && i in s.live.tasks && s.live.tasks[i] == Queued
    requires i in s.db.items.rows && s.db.items.rows[i].jobId == job
    requires forall k :: k in s.live.tasks && Busy(s.live.tasks[k]) ==> k in busy
    requires |busy| < env.concurrency
    ensures Apply(env, s, Begin(i)) == s.(live := s.live.(tasks := s.live.tasks[i := Generating]))
  {
    forall k: int | k in BusyTasks(s.db.items.rows, s.live.tasks, job) ensures k in busy {
    }
    SubsetCard(BusyTasks(s.db.items.rows, s.live.tasks, job), busy);
  }

  /** Before a worker has loaded its job it has no tasks, and none of its items runs. */
  lemma FreshWorker(env: Env, s: State, job: int)
    requires Reachable(env, s) && s.live.Up? && job in s.live.workers && s.live.workers[job].phase == Scheduled
    ensures s.live.tasks == map[]
    ensures forall i :: i in s.db.items.rows && s.db.items.rows[i].jobId == job && Unfinished(s.db.items.rows[i]) ==>
      s.db.items.rows[i].status == Pending
  {
    hide Stored, LeasesOk, WorkersOk, ActsOk, PrepsOk, BusyOk, Reachable;
    ReachableInv(env, s);
    OnlyWorker(env, s, job);
    forall i: int ensures i !in s.live.tasks {
    }
  }

  /** Items of the batch: claimed and not yet through. */
  ghost predicate BatchClaimed(items: map<int, Item>, later: map<int, Item>, tasks: seq<int>, job: int) {
    && later.Keys == items.Keys
    && (forall i :: i in items && i !in tasks ==> later[i] == items[i])
    && (forall i :: i in tasks ==> i in items && items[i].jobId == job && items[i].status == Pending && later[i] == items[i].(status := Running))
  }

  /** Exactly one task per claimed item, none of them begun, no item claimed twice. */
  ghost predicate AllWaiting(at: map<int, TaskPc>, tasks: seq<int>) {
    && (forall i :: i in at <==> i in tasks)
    && (forall i :: i in at ==> at[i] == Queued)
    && (forall m, n :: 0 <= m < n < |tasks| ==> tasks[m] != tasks[n])
  }

  lemma NothingClaimed(items: map<int, Item>, job: int)
    ensures BatchClaimed(items, items, [], job) && AllWaiting(map[], [])
  {
  }

  lemma OneMoreClaimed(items: map<int, Item>, now: map<int, Item>, tasks: seq<int>, job: int, i: int)
    requires BatchClaimed(items, now, tasks, job) && i in now && now[i].jobId == job && now[i].status == Pending
    ensures BatchClaimed(items, now[i := now[i].(status := Running)], tasks + [i], job)
    ensures i !in tasks
  {
    assert i in items.Keys;
  }

  lemma OneMoreWaiting(at: map<int, TaskPc>, tasks: seq<int>, i: int)
    requires AllWaiting(at, tasks) && i !in tasks
    ensures AllWaiting(at[i := Queued], tasks + [i])
  {
  }

  lemma OneLessPending(items: map<int, Item>, job: int, i: int)
    requires i in items && items[i].jobId == job && items[i].status == Pending
    ensures |PendingOf(items[i := items[i].(status := Running)], job)| < |PendingOf(items, job)|
  {
    assert PendingOf(items[i := items[i].(status := Running)], job) == PendingOf(items, job) - {i};
    assert i in PendingOf(items, job);
  }

  /** The batch as the gather loop finds it: `done` is through, the rest is claimed. */
  ghost predicate Progressed(items: map<int, Item>, later: map<int, Item>, done: set<int>, model: Model) {
    && (forall i :: i in items <==> i in later)
    && (forall i :: i in items && i !in done ==> later[i] == items[i])
    && (forall i :: i in done ==> i in items && SameWork(items[i], later[i]) && later[i].status == Outcome(model, i))
  }

  predicate KeyOfOne(k: Key, items: map<int, Item>, ids: set<int>) {
    exists i :: i in ids && i in items && ItemKey(items[i]) == Some(k)
  }

  /** Exactly the leases of the items in `done` are gone. */
  ghost predicate Freed(leases: map<Key, Lease>, later: map<Key, Lease>, items: map<int, Item>, done: set<int>) {
    && (forall k :: k in later <==> k in leases && !KeyOfOne(k, items, done))
    && (forall k :: k in later ==> later[k] == leases[k])
  }

  lemma OneMoreDone(items: map<int, Item>, now: map<int, Item>, later: Item, done: set<int>, i: int, model: Model)
    requires Progressed(items, now, done, model) && i in items && i !in done
    requires SameWork(items[i], later) && later.status == Outcome(model, i)
    ensures Progressed(items, now[i := later], done + {i}, model)
  {
  }

  lemma OneMoreFreed(leases: map<Key, Lease>, now: map<Key, Lease>, items: map<int, Item>, done: set<int>, i: int)
    requires Freed(leases, now, items, done) && i in items
    ensures ItemKey(items[i]).Some? ==> Freed(leases, now - {ItemKey(items[i]).value}, items, done + {i})
    ensures ItemKey(items[i]).None? ==> Freed(leases, now, items, done + {i})
  {
    hide ItemKey;
    forall k ensures KeyOfOne(k, items, done + {i}) <==> KeyOfOne(k, items, done) || ItemKey(items[i]) == Some(k) {
      assert i in done + {i};
    }
  }

  /** Where the item tasks stand: waiting for the semaphore, inside it, or through. */
  ghost predicate Placed(at: map<int, TaskPc>, tasks: seq<int>, queued: set<int>, busy: set<int>, done: set<int>) {
    && (forall i :: i in at <==> i in tasks)
    && (forall i :: i in tasks ==> i in queued || i in busy || i in done)
    && (forall i :: i in queued ==> i in at && i !in busy && i !in done && at[i] == Queued)
    && (forall i :: i in busy ==> i in at && i !in done && at[i] == Generating)
    && (forall i :: i in done ==> i in at && at[i] == Finished)
  }

  lemma AllQueued(at: map<int, TaskPc>, tasks: seq<int>)
    requires AllWaiting(at, tasks)
    ensures Placed(at, tasks, Members(tasks), {}, {})
  {
  }

  lemma PlacedTasks(at: map<int, TaskPc>, tasks: seq<int>, queued: set<int>, busy: set<int>, done: set<int>, i: int)
    requires Placed(at, tasks, queued, busy, done)
    ensures i in queued ==> i in at && at[i] == Queued && i !in busy
    ensures i in busy ==> i in at && at[i] == Generating && i !in done
    ensures forall k :: k in at && Busy(at[k]) ==> k in busy
  {
  }

  lemma StartedPlaced(at: map<int, TaskPc>, tasks: seq<int>, queued: set<int>, busy: set<int>, done: set<int>, i: int)
    requires Placed(at, tasks, queued, busy, done) && i in queued
    ensures Placed(at[i := Generating], tasks, queued - {i}, busy + {i}, done)
  {
  }

  lemma FinishedPlaced(at: map<int, TaskPc>, tasks: seq<int>, queued: set<int>, busy: set<int>, done: set<int>, i: int)
    requires Placed(at, tasks, queued, busy, done) && i in busy
    ensures Placed(at[i := Finished], tasks, queued, busy - {i}, done + {i})
  {
  }

  lemma AllPlaced(at: map<int, TaskPc>, tasks: seq<int>, done: set<int>)
    requires Placed(at, tasks, {}, {}, done)
    ensures done == Members(tasks) && forall i :: i in at ==> at[i] == Finished
  {
    forall i: int ensures i in done <==> i in Members(tasks) {
    }
  }

  lemma NothingDone(items: map<int, Item>, leases: map<Key, Lease>, model: Model)
    ensures Progressed(items, items, {}, model) && Freed(leases, leases, items, {})
  {
  }

  lemma UndoneItem(items: map<int, Item>, now: map<int, Item>, done: set<int>, i: int, model: Model)
    requires Progressed(items, now, done, model) && i in now && i !in done
    ensures i in items && now[i] == items[i]
  {
  }

  lemma QueuedItem(env: Env, s: State, job: int, i: int)
    requires Reachable(env, s) && s.live.Up? && job in s.live.workers && i in s.live.tasks
    ensures i in s.db.items.rows && s.db.items.rows[i].jobId == job
  {
    hide Reachable, Inv;
    ReachableInv(env, s);
    OnlyWorker(env, s, job);
  }

  lemma SameWorkSameKey(item: Item, later: Item)
    requires SameWork(item, later)
    ensures ItemKey(later) == ItemKey(item)
  {
  }

  function Members(ids: seq<int>): set<int> {
    set i: int | i in ids
  }

  function UnfinishedOf(items: map<int, Item>, job: int): set<int> {
    set i | i in items && items[i].jobId == job && Unfinished(items[i])
  }

  /** Every unfinished item of the job ended as its own generation says; nothing else changed. */
  ghost predicate Completed(items: map<int, Item>, later: map<int, Item>, job: int, model: Model) {
    && (forall i :: i in items <==> i in later)
    && (forall i :: i in items && !(items[i].jobId == job && Unfinished(items[i])) ==> later[i] == items[i])
    && (forall i :: i in items && items[i].jobId == job && Unfinished(items[i]) ==>
          SameWork(items[i], later[i]) && later[i].status == Outcome(model, i))
  }

  lemma BatchDone(items: map<int, Item>, claimed: map<int, Item>, later: map<int, Item>, tasks: seq<int>, job: int, model: Model)
    requires BatchClaimed(items, claimed, tasks, job) && Progressed(claimed, later, Members(tasks), model)
    requires forall i :: i in claimed && claimed[i].jobId == job ==> claimed[i].status != Pending
    requires forall i :: i in items && items[i].jobId == job && Unfinished(items[i]) ==> items[i].status == Pending
    ensures Completed(items, later, job, model)
  {
    forall i: int ensures i in claimed <==> i in items {
      assert i in claimed.Keys <==> i in items.Keys;
    }
    forall i: int | i in items ensures i in tasks <==> items[i].jobId == job && Unfinished(items[i]) {
    }
  }

  lemma BatchFreed(leases: map<Key, Lease>, later: map<Key, Lease>, items: map<int, Item>, claimed: map<int, Item>, tasks: seq<int>, job: int)
    requires BatchClaimed(items, claimed, tasks, job) && Freed(leases, later, claimed, Members(tasks))
    requires forall i :: i in claimed && claimed[i].jobId == job ==> claimed[i].status != Pending
    requires forall i :: i in items && items[i].jobId == job && Unfinished(items[i]) ==> items[i].status == Pending
    ensures Freed(leases, later, items, UnfinishedOf(items, job))
  {
    forall i: int ensures i in claimed <==> i in items {
      assert i in claimed.Keys <==> i in items.Keys;
    }
    forall i: int ensures i in Members(tasks) <==> i in UnfinishedOf(items, job) {
    }
    forall i: int | i in items ensures ItemKey(claimed[i]) == ItemKey(items[i]) {
    }
    hide ItemKey, Members, UnfinishedOf;
    forall k ensures KeyOfOne(k, claimed, Members(tasks)) <==> KeyOfOne(k, items, UnfinishedOf(items, job)) {
    }
  }

  lemma LoadIs(env: Env, s: State, job: int)
    requires Reachable(env, s) && s.live.Up? && job in s.live.workers && s.live.workers[job].phase == Scheduled
    ensures Apply(env, s, Load(job)) ==
      s.(live := s.live.(workers := s.live.workers[job := s.live.workers[job].(phase := Loaded)]))
  {
    hide Reachable, SetupOk, Table.Valid;
    JobFacts(env, s, job);
  }

  lemma LimitIs(env: Env, s: State, job: int, model: Model)
    requires Reachable(env, s) && s.live.Up? && job in s.live.workers && s.live.workers[job].phase == Loaded
    ensures job in s.db.jobs.rows
    ensures var after := Apply(env, s, LearnLimit(job, model.limitKnown, model.admits));
      if s.live.workers[job].recovering && !(model.limitKnown && model.admits) then
        after.live.Up? && job !in after.live.workers && after.db == CancelAndRelease(s.db, job)
      else
        after == s.(live := s.live.(workers := s.live.workers[job := s.live.workers[job].(phase := Claiming, limitKnown := model.limitKnown)]))
  {
    hide Reachable, AllMatch, Table.Valid, Inv, CancelAndRelease;
    ReachableInv(env, s);
    WorkerJobBacked(env, s, job);
    AllStillMatch(env, s, job);
  }

  lemma FinishIs(env: Env, s: State, job: int)
    requires Reachable(env, s) && s.live.Up? && job in s.live.workers && s.live.workers[job].phase == Draining
    requires forall i :: i in s.live.tasks ==> s.live.tasks[i] == Finished
    ensures job in s.db.jobs.rows && !HasUnfinished(s.db.items, job)
    ensures var after := Apply(env, s, Finish(job));
      after.live.Up? && job !in after.live.workers && after.db == FinalizeJob(s.db, job)
  {
    hide Reachable, Stored, LeasesOk, WorkersOk, ActsOk, PrepsOk, BusyOk, Table.Valid, HasUnfinished;
    JobFacts(env, s, job);
    ReachableInv(env, s);
    NothingLeft(s, job);
  }

  class BatchWorker {
    const db: Database
    const concurrency: nat

    constructor (db: Database, concurrency: nat)
      ensures this.db == db && this.concurrency == concurrency
    {
      this.db, this.concurrency := db, concurrency;
    }

    /** Generate one item inside the semaphore, persist or fail it, then free its target. */
    method ProcessItem(ghost env: Env, ghost s: State, job: int, i: int, model: Model) returns (ghost later: State)
      requires At(env, s, db.State(), job, Draining) && s.live.workers[job].limitKnown == model.limitKnown
      requires i in s.live.tasks && s.live.tasks[i] == Generating
      modifies db
      ensures At(env, later, db.State(), job, Draining) && later.live.workers == s.live.workers
      ensures later == Apply(env, Apply(env, s, Settle(i, model.Text(i))), Free(i))
      ensures later.live.tasks == s.live.tasks[i := Finished]
      ensures i in db.items.rows && db.items.rows[i].status == Outcome(model, i)
      ensures i in old(db.items.rows) && db.items == old(db.items).Set(i, db.items.rows[i])
      ensures SameWork(old(db.items.rows)[i], db.items.rows[i])
      ensures db.jobs == old(db.jobs)
      ensures db.leases == ReleaseTarget(old(db.State()), ItemKey(old(db.items.rows)[i])).leases
    {
      hide Reachable, StillMatches, CompleteItem, FailItem, Apply, Table.Valid, SameWork, ItemKey;
      JobFacts(env, s, job);
      SettleIs(env, s, job, i, model);
      ghost var settled := Apply(env, s, Settle(i, model.Text(i)));
      ReachableStep(env, s, Settle(i, model.Text(i)));
      ReachableStep(env, settled, Free(i));
      var item := db.items.rows[i];
      if model.limitKnown && model.Text(i).Some? {
        var row := RowOf(db.State(), i, model.Text(i).value);
        SettledTables(db.State(), i, item.targetType, row);
        var done := db.CompleteJobItem(i, item.targetType, row);
      } else {
        SettledTables(db.State(), i, item.targetType, RowOf(db.State(), i, ""));
        db.FailJobItem(i, "");
      }
      assert settled.db == db.State();
      assert settled.db.items == db.items && settled.db.entries == s.db.entries;
      SameWorkSameKey(old(db.items.rows)[i], db.items.rows[i]);
      FreeIs(env, settled, i);
      db.ReleaseLeaseByTarget(ItemKey(db.items.rows[i]));
      later := Apply(env, settled, Free(i));
    }

    /** Claim every pending item; each becomes a task. */
    method ClaimAll(ghost env: Env, ghost s: State, job: int) returns (tasks: seq<int>, ghost later: State)
      requires At(env, s, db.State(), job, Claiming) && s.live.tasks == map[]
      modifies db
      ensures At(env, later, db.State(), job, Draining)
      ensures later.live.workers == s.live.workers[job := s.live.workers[job].(phase := Draining)]
      ensures db.State() == old(db.State()).(items := db.items)
      ensures BatchClaimed(old(db.items.rows), db.items.rows, tasks, job)
      ensures forall i :: i in db.items.rows && db.items.rows[i].jobId == job ==> db.items.rows[i].status != Pending
      ensures AllWaiting(later.live.tasks, tasks)
    {
      hide Reachable, Apply, Table.Valid, BatchClaimed, AllWaiting, PendingOf;
      tasks, later := [], s;
      NothingClaimed(db.items.rows, job);
      while true
        invariant At(env, later, db.State(), job, Claiming) && later.live.workers == s.live.workers
        invariant db.State() == old(db.State()).(items := db.items)
        invariant BatchClaimed(old(db.items.rows), db.items.rows, tasks, job)
        invariant AllWaiting(later.live.tasks, tasks)
        decreases |PendingOf(db.items.rows, job)|
      {
        JobFacts(env, later, job);
        ghost var before := db.items.rows;
        var next := db.ClaimNextPending(job);
        if next.None? {
          EndClaimsIs(env, later, job);
          ReachableStep(env, later, EndClaims(job));
          later := Apply(env, later, EndClaims(job));
          break;
        }
        var i := next.value;
        ClaimIs(env, later, job, i);
        ReachableStep(env, later, Claim(i));
        OneMoreClaimed(old(db.items.rows), before, tasks, job, i);
        OneMoreWaiting(later.live.tasks, tasks, i);
        OneLessPending(before, job, i);
        later := Apply(env, later, Claim(i));
        tasks := tasks + [i];
      }
    }

    /** `asyncio.gather`: the tasks proceed in any order, at most `concurrency` inside the semaphore. */
    method Gather(ghost env: Env, ghost s: State, job: int, tasks: seq<int>, model: Model) returns (ghost later: State)
      requires At(env, s, db.State(), job, Draining) && s.live.workers[job].limitKnown == model.limitKnown
      requires AllWaiting(s.live.tasks, tasks)
      requires env.concurrency == concurrency > 0
      modifies db
      ensures At(env, later, db.State(), job, Draining)
      ensures forall i :: i in later.live.tasks ==> later.live.tasks[i] == Finished
      ensures Progressed(old(db.items.rows), db.items.rows, Members(tasks), model)
      ensures Freed(old(db.leases.rows), db.leases.rows, old(db.items.rows), Members(tasks))
      ensures db.jobs == old(db.jobs)
    {
      hide Reachable, Apply, Table.Valid, ItemKey, Placed, Progressed, Freed, Members, SameWork;
      ghost var items := db.items.rows;
      var queued: set<int>, busy: set<int> := Members(tasks), {};
      ghost var done: set<int> := {};
      later := s;
      AllQueued(s.live.tasks, tasks);
      NothingDone(items, db.leases.rows, model);
      while queued + busy != {}
        invariant At(env, later, db.State(), job, Draining) && later.live.workers == s.live.workers
        invariant Placed(later.live.tasks, tasks, queued, busy, done)
        invariant |busy| <= concurrency
        invariant Progressed(items, db.items.rows, done, model)
        invariant Freed(old(db.leases.rows), db.leases.rows, items, done)
        invariant db.jobs == old(db.jobs)
        decreases |queued|, |busy|
      {
        JobFacts(env, later, job);
        var another: bool := *;
        if queued != {} && |busy| < concurrency && (busy == {} || another) {
          var i := Pick(queued);
          PlacedTasks(later.live.tasks, tasks, queued, busy, done, i);
          QueuedItem(env, later, job, i);
          BeginIs(env, later, job, i, busy);
          ReachableStep(env, later, Begin(i));
          StartedPlaced(later.live.tasks, tasks, queued, busy, done, i);
          later := Apply(env, later, Begin(i));
          queued, busy := queued - {i}, busy + {i};
        } else {
          var i := Pick(busy);
          PlacedTasks(later.live.tasks, tasks, queued, busy, done, i);
          FinishedPlaced(later.live.tasks, tasks, queued, busy, done, i);
          ghost var itemsBefore, leasesBefore := db.items.rows, db.leases.rows;
          later := ProcessItem(env, later, job, i, model);
          UndoneItem(items, itemsBefore, done, i, model);
          OneMoreDone(items, itemsBefore, db.items.rows[i], done, i, model);
          OneMoreFreed(old(db.leases.rows), leasesBefore, items, done, i);
          busy, done := busy - {i}, done + {i};
        }
      }
      AllPlaced(later.live.tasks, tasks, done);
    }

    /** `run_job` of a job just admitted (or just recovered). A recovered job whose limit cannot be
        confirmed, or is too small, is cancelled as a whole; otherwise the job ends done, each of its
        items ok or failed by its own generation, none of its targets leased, nothing else touched. */
    method RunJob(ghost env: Env, ghost s: State, job: int, recovering: bool, model: Model) returns (cancelled: bool, ghost later: State)
      requires At(env, s, db.State(), job, Scheduled) && s.live.workers[job] == Worker(recovering, Scheduled, false)
      requires env.concurrency == concurrency > 0
      modifies db
      ensures Reachable(env, later) && later.db == db.State() && later.live.Up? && job !in later.live.workers
      ensures cancelled <==> recovering && !(model.limitKnown && model.admits)
      ensures cancelled ==> job in old(db.jobs.rows) && db.State() == CancelAndRelease(old(db.State()), job)
      ensures !cancelled ==>
        && job in old(db.jobs.rows) && db.jobs == old(db.jobs).Set(job, old(db.jobs.rows)[job].(status := JobDone))
        && Completed(old(db.items.rows), db.items.rows, job, model)
        && Freed(old(db.leases.rows), db.leases.rows, old(db.items.rows), UnfinishedOf(old(db.items.rows), job))
    {
      hide Reachable, Apply, Table.Valid, ItemKey, CancelAndRelease;
      FreshWorker(env, s, job);
      JobFacts(env, s, job);
      // setup cannot fail, so the first refusal point is the recovery validation
      LoadIs(env, s, job);
      ReachableStep(env, s, Load(job));
      later := Apply(env, s, Load(job));
      LimitIs(env, later, job, model);
      ReachableStep(env, later, LearnLimit(job, model.limitKnown, model.admits));
      later := Apply(env, later, LearnLimit(job, model.limitKnown, model.admits));
      if recovering && !(model.limitKnown && model.admits) {
        db.CancelSetupFailure(job);
        return true, later;
      }
      ghost var items := db.items.rows;
      var tasks;
      tasks, later := ClaimAll(env, later, job);
      ghost var claimed := db.items.rows;
      later := Gather(env, later, job, tasks, model);
      BatchDone(items, claimed, db.items.rows, tasks, job, model);
      BatchFreed(old(db.leases.rows), db.leases.rows, items, claimed, tasks, job);
      JobFacts(env, later, job);
      FinishIs(env, later, job);
      ReachableStep(env, later, Finish(job));
      db.FinalizeJob(job);
      later := Apply(env, later, Finish(job));
      cancelled := false;
    }
  }
}
