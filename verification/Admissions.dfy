/** When work is admitted, requeued or refused, exactly, and what a refusal takes away. */
module Admissions {
  import opened Tables
  import opened TargetKeys
  import opened Archive
  import opened Store
  import opened GenerationSafety
  import opened SafetyInvariant
  import opened WorkSteps
  import opened SafetyTheorems
  import opened Guarantees
  import opened RetryAdmission

  /** No target is leased, and no two are the same. */
  ghost predicate TargetsFree(leases: map<Key, Lease>, targets: seq<Prepared>)
    requires AllValid(targets)
  {
    && (forall n :: 0 <= n < |targets| ==> targets[n].Key() !in leases)
    && (forall m, n :: 0 <= m < n < |targets| ==> targets[m].Key() != targets[n].Key())
  }

  /** A batch gets its leases exactly if all its targets are free and different; the refusal names a
      target that was taken or comes twice. */
  lemma {:induction false} ClaimSucceedsExactly(leases: LeaseTable, targets: seq<Prepared>, firstItem: int)
    requires leases.Valid() && AllValid(targets)
    ensures ClaimTargets(leases, targets, firstItem).Claimed? <==> TargetsFree(leases.rows, targets)
    ensures ClaimTargets(leases, targets, firstItem).Taken? ==>
      exists n :: 0 <= n < |targets| && targets[n].Key() == ClaimTargets(leases, targets, firstItem).key
  {
    hide Prepared.Key, Prepared.Valid, LeaseTable.Valid, ClaimedFor;
    if targets != [] {
      var n := |targets| - 1;
      var front := targets[..n];
      ClaimSucceedsExactly(leases, front, firstItem);
      assert forall m :: 0 <= m < n ==> front[m] == targets[m];
      match ClaimTargets(leases, front, firstItem)
      case Taken(key) =>
        var m :| 0 <= m < |front| && front[m].Key() == key;
        assert targets[m].Key() == key;
      case Claimed(l) =>
        ClaimTargetsFacts(leases, front, firstItem);
        LaterKeys(leases, l, front, firstItem, targets[n].Key());
    }
  }

  lemma LaterKeys(leases: LeaseTable, later: LeaseTable, targets: seq<Prepared>, firstItem: int, k: Key)
    requires AllValid(targets) && ClaimedFor(leases, later, targets, firstItem)
    ensures k in later.rows <==> k in leases.rows || exists n :: 0 <= n < |targets| && targets[n].Key() == k
  {
    hide Prepared.Key, Prepared.Valid, LeaseTable.Valid;
    if k in later.rows && k !in leases.rows {
      assert ClaimedRow(k, later.rows[k], targets, firstItem);
    }
    if n :| 0 <= n < |targets| && targets[n].Key() == k {
      assert ClaimedKey(leases, later, targets[n].Key(), firstItem + n);
    }
  }

  predicate PromptAvailable(db: Db, prompt: PromptChoice) {
    prompt.Existing? ==> prompt.id in db.prompts.rows
  }

  /** A batch is admitted exactly if maintenance is off, the archive is the one it was prepared from,
      its targets are free and different, its prompt and entries exist, and no job runs. */
  lemma EnqueueExactlyWhen(db: Db, prompt: PromptChoice, preflight: seq<int>, targets: seq<Prepared>)
    requires db.entries.Valid() && db.leases.Valid() && AllValid(targets)
    ensures Enqueue(db, prompt, preflight, targets).1.Success? <==>
      && !db.locked
      && preflight == OrderedIds(db.entries)
      && TargetsFree(db.leases.rows, targets)
      && PromptAvailable(db, prompt)
      && !SomeJobRunning(db.jobs)
      && TargetsExist(db.entries, targets)
    ensures Enqueue(db, prompt, preflight, targets).1.Failure? ==> Enqueue(db, prompt, preflight, targets).0 == db
  {
    hide OrderedIds, ClaimTargets, AddItems, TargetsFree, LeaseTable.Valid;
    ClaimSucceedsExactly(db.leases, targets, db.items.next);
  }

  /** Which refusal a batch gets: maintenance comes first, then a changed archive, then a busy target, and
      a broken reference or a running job last. */
  lemma RefusalOfEnqueue(db: Db, prompt: PromptChoice, preflight: seq<int>, targets: seq<Prepared>)
    requires db.entries.Valid() && db.leases.Valid() && AllValid(targets)
    ensures var r := Enqueue(db, prompt, preflight, targets).1;
      && (r == Failure(MaintenanceLocked) <==> db.locked)
      && (r == Failure(ArchiveChanged) <==> !db.locked && preflight != OrderedIds(db.entries))
      && (r.Failure? && r.error.TargetBusy? <==> !db.locked && preflight == OrderedIds(db.entries) && !TargetsFree(db.leases.rows, targets))
      && (r == Failure(IntegrityError) <==>
            !db.locked && preflight == OrderedIds(db.entries) && TargetsFree(db.leases.rows, targets)
            && (!PromptAvailable(db, prompt) || SomeJobRunning(db.jobs) || !TargetsExist(db.entries, targets)))
    ensures var r := Enqueue(db, prompt, preflight, targets).1;
      r.Failure? && r.error.TargetBusy? ==> exists n :: 0 <= n < |targets| && targets[n].Key() == r.error.key
  {
    hide OrderedIds, ClaimTargets, AddItems, TargetsFree, LeaseTable.Valid, Prepared.Key, Prepared.Valid;
    ClaimSucceedsExactly(db.leases, targets, db.items.next);
  }

  /** Which refusal a retry gets. */
  lemma RefusalOfRetry(env: Env, s: State, i: int, expectedJob: Option<int>, key: Key)
    requires Reachable(env, s) && Backed(s.db.jobs.rows, s.db.items.rows, i)
    ensures var item, r := s.db.items.rows[i], Retry(s.db, i, expectedJob).1;
      var mine := expectedJob.Some? ==> expectedJob.value == item.jobId;
      var open := mine && item.status == Failed && !s.db.locked && s.db.jobs.rows[item.jobId].status == JobDone
        && item.baseline == CurrentResult(s.db, item.targetType, item.entryId) && !NewerItem(s.db.items, i);
      && (r == Failure(ItemJobMismatch) <==> !mine)
      && (r == Failure(MaintenanceLocked) <==> mine && item.status == Failed && s.db.locked)
      && (r == Failure(TargetBusy(key)) <==> open && ItemKey(item) == Some(key) && key in s.db.leases.rows)
      && (r == Failure(IntegrityError) <==> open && ItemKey(item).Some? && ItemKey(item).value !in s.db.leases.rows && OtherJobRunning(s.db.jobs, item.jobId))
      && (r.Failure? ==> r.error == ItemJobMismatch || r.error == MaintenanceLocked || r.error.TargetBusy? || r.error == IntegrityError || r.error == StaleOrSuperseded)
  {
    hide Reachable, Inv, NewerItem, OtherJobRunning, Current;
    ReachableInv(env, s);
    ProperIdentity(env, s, i);
  }

  /** An item of a snapshot-backed job is requeued exactly if it has failed, its job is done, nothing
      superseded it, its target is free, no other job runs and maintenance is off. Its stored request
      identity is never the obstacle. */
  lemma RetryExactlyWhen(env: Env, s: State, i: int, expectedJob: Option<int>)
    requires Reachable(env, s) && Backed(s.db.jobs.rows, s.db.items.rows, i)
    ensures var item := s.db.items.rows[i];
      Retry(s.db, i, expectedJob).1.Success? <==>
        && (expectedJob.Some? ==> expectedJob.value == item.jobId)
        && item.status == Failed && s.db.jobs.rows[item.jobId].status == JobDone
        && !s.db.locked
        && item.baseline == CurrentResult(s.db, item.targetType, item.entryId)
        && !NewerItem(s.db.items, i)
        && (ItemKey(item).Some? && ItemKey(item).value !in s.db.leases.rows)
        && !OtherJobRunning(s.db.jobs, item.jobId)
    ensures Retry(s.db, i, expectedJob).1.Success? ==> Retried(s.db, Retry(s.db, i, expectedJob).0, i)
    ensures Retry(s.db, i, expectedJob).1.Failure? ==> Retry(s.db, i, expectedJob).0 == s.db
  {
    RetryFacts(s.db, i, expectedJob);
    hide Reachable, Inv, NewerItem, OtherJobRunning, Current, Retried;
    ReachableInv(env, s);
    ProperIdentity(env, s, i);
  }

  lemma ProperIdentity(env: Env, s: State, i: int)
    requires Inv(env, s) && Backed(s.db.jobs.rows, s.db.items.rows, i)
    ensures var item := s.db.items.rows[i];
      && PreparedOf(item).Some? && PreparedOf(item).value.Valid()
      && ItemKey(item) == Some(PreparedOf(item).value.Key())
  {
    hide EntriesValid, PromptsValid, ResultsValid, JobsOk, OneRunning, BaselinesOk, TargetsDistinct, HistoryOrdered, HistoryOk, ChatOk, Attended, Matches;
  }

  /** The lease was inserted for an item of this job that is still unfinished. */
  predicate ForUnfinishedOf(lease: Lease, items: map<int, Item>, job: int) {
    && lease.holder.ForItem? && lease.holder.itemId in items
    && items[lease.holder.itemId].jobId == job && Unfinished(items[lease.holder.itemId])
  }

  /** Refusing a job cancels it and takes away exactly its unfinished items and exactly their leases. */
  lemma RefusalIsExact(env: Env, s: State, job: int)
    requires Reachable(env, s) && s.live.Up? && job in s.db.jobs.rows
    ensures var after := Refuse(s, job).db;
      && after.jobs == s.db.jobs.Set(job, s.db.jobs.rows[job].(status := JobCancelled))
      && (forall i :: i in after.items.rows <==> i in s.db.items.rows && !(s.db.items.rows[i].jobId == job && Unfinished(s.db.items.rows[i])))
      && (forall i :: i in after.items.rows ==> after.items.rows[i] == s.db.items.rows[i])
      && (forall k :: k in after.leases.rows <==> k in s.db.leases.rows && !ForUnfinishedOf(s.db.leases.rows[k], s.db.items.rows, job))
      && (forall k :: k in after.leases.rows ==> after.leases.rows[k] == s.db.leases.rows[k])
      && after == s.db.(jobs := after.jobs, items := after.items, leases := after.leases)
  {
    hide Stored, Reachable, TasksOk, WorkersOk, ActsOk, PrepsOk, BusyOk;
    ReachableInv(env, s);
    LeasesOfUnfinished(s.db.leases.rows, s.db.items, s.live.acts, s.live.tasks, job);
    hide LeasesOk, UnfinishedKeys, ForUnfinishedOf, Unfinished, TasksOf;
  }

  lemma LeasesOfUnfinished(leases: map<Key, Lease>, items: Table<Item>, acts: map<int, Activity>, tasks: map<int, TaskPc>, job: int)
    requires LeasesOk(leases, items.rows, acts, tasks)
    ensures forall k :: k in leases ==> (k in UnfinishedKeys(items, job) <==> ForUnfinishedOf(leases[k], items.rows, job))
  {
    hide ItemKey, Unfinished, Settling;
    forall k | k in leases ensures k in UnfinishedKeys(items, job) <==> ForUnfinishedOf(leases[k], items.rows, job) {
      assert HolderOk(k, leases[k], items.rows, acts, tasks);
      if k in UnfinishedKeys(items, job) {
        KeysReleased(leases, items, acts, tasks, job, k);
      }
    }
  }
}
