/** Startup recovery is complete and exact, from every crash point the protocol can reach. */
module StartupRecovery {
  import opened Tables
  import opened TargetKeys
  import opened Archive
  import opened Store
  import opened GenerationSafety
  import opened SafetyInvariant
  import opened WorkSteps

  // ------------------------------------------------------------------ the checks before a resume

  lemma {:induction false} DistinctMembers(rows: Entries, ids: seq<int>)
    requires SortedIds(rows, ids)
    ensures |set k | k in ids| == |ids|
  {
    if ids != [] {
      var n := |ids| - 1;
      DistinctMembers(rows, ids[..n]);
      var before := set k | k in ids[..n];
      assert ids == ids[..n] + [ids[n]];
      assert ids[n] !in ids[..n] by {
        if ids[n] in ids[..n] {
          var i :| 0 <= i < n && ids[..n][i] == ids[n];
          BeforeTotal(rows[ids[i]], rows[ids[n]]);
        }
      }
      assert (set k | k in ids) == before + {ids[n]};
    }
  }

  /** The stored snapshot of a job passes recovery's check in every reachable state. */
  lemma SnapshotStillValid(db: Db, j: int)
    requires JobsOk(db.entries.rows, db.prompts.rows, db.jobs.rows)
    requires j in db.jobs.rows && db.jobs.rows[j].snapshotCount.Some?
    ensures SnapshotValid(db, db.jobs.rows[j])
  {
    var snapshot := db.jobs.rows[j].snapshot;
    DistinctMembers(db.entries.rows, snapshot);
    assert (set k | k in snapshot && k in db.entries.rows) == (set k | k in snapshot);
  }

  lemma IdentitiesStillValid(env: Env, db: Db, j: int, ids: seq<int>)
    requires ItemsOk(env, db.entries.rows, db.prompts.rows, db.jobs.rows, db.items.rows)
    requires j in db.jobs.rows && db.jobs.rows[j].snapshotCount.Some?
    requires forall n :: 0 <= n < |ids| ==> ids[n] in db.items.rows && db.items.rows[ids[n]].jobId == j
    ensures forall n :: 0 <= n < |ids| ==> ValidIdentity(db.items.rows[ids[n]], db.jobs.rows[j].snapshot)
    ensures Leasable(db.items, ids)
  {
    hide Matches;
    forall n | 0 <= n < |ids| ensures ValidIdentity(db.items.rows[ids[n]], db.jobs.rows[j].snapshot) {
      var i := ids[n];
      assert ItemGood(env, db.entries.rows, db.prompts.rows[db.jobs.rows[j].promptId], db.jobs.rows[j].snapshot, db.items.rows[i]);
    }
  }

  // ------------------------------------------------------------------ what recovery insists on

  function Found(ids: seq<int>, entries: Entries): set<int> {
    set k | k in ids && k in entries
  }

  lemma {:induction false} FoundAtMost(ids: seq<int>, entries: Entries)
    ensures |Found(ids, entries)| <= |ids|
  {
    if ids == [] {
      assert Found(ids, entries) == {};
    } else {
      var n := |ids| - 1;
      FoundAtMost(ids[..n], entries);
      OneMoreFound(ids, entries);
    }
  }

  lemma OneMoreFound(ids: seq<int>, entries: Entries)
    requires ids != []
    ensures var n := |ids| - 1;
      Found(ids, entries) == Found(ids[..n], entries) + if ids[n] in entries then {ids[n]} else {}
  {
    var n := |ids| - 1;
    assert ids == ids[..n] + [ids[n]];
    forall k: int ensures k in Found(ids, entries) <==> k in Found(ids[..n], entries) + if ids[n] in entries then {ids[n]} else {} {
    }
  }

  /** As many members found as there are places means that every one is found, and none twice. */
  lemma {:induction false} AllFound(ids: seq<int>, entries: Entries)
    requires |Found(ids, entries)| == |ids|
    ensures forall n :: 0 <= n < |ids| ==> ids[n] in entries
    ensures forall m, n :: 0 <= m < n < |ids| ==> ids[m] != ids[n]
  {
    if ids != [] {
      var n := |ids| - 1;
      var before := ids[..n];
      FoundAtMost(before, entries);
      OneMoreFound(ids, entries);
      assert ids[n] in entries && ids[n] !in Found(before, entries);
      AllFound(before, entries);
      forall m | 0 <= m < n ensures ids[m] in entries && ids[m] != ids[n] {
        assert before[m] == ids[m] && before[m] in before;
      }
      assert forall a, b :: 0 <= a < b < n ==> before[a] == ids[a] && before[b] == ids[b];
    }
  }

  /** In whatever state the database is found, a job is resumed only if its prompt is there, its stored
      snapshot is whole (as many members as recorded, none twice, every one an existing entry), and each
      of its unfinished items has a stored identity and a target inside the snapshot. Otherwise it is
      cancelled, with its unfinished items, and holds nothing. */
  lemma ResumedOnlyIfIntact(r: Recovery, jobId: int)
    requires jobId in r.db.jobs.rows && r.db.items.Valid()
    ensures var after, job := RecoverJob(r, jobId), r.db.jobs.rows[jobId];
      && (after.recovered == r.recovered + [jobId] || (after.recovered == r.recovered && after.cancelled == r.cancelled + [jobId]))
      && (after.recovered == r.recovered + [jobId] ==>
            && job.promptId in r.db.prompts.rows && job.snapshotCount == Some(|job.snapshot|)
            && (forall n :: 0 <= n < |job.snapshot| ==> job.snapshot[n] in r.db.entries.rows)
            && (forall m, n :: 0 <= m < n < |job.snapshot| ==> job.snapshot[m] != job.snapshot[n])
            && (forall i :: i in r.db.items.rows && r.db.items.rows[i].jobId == jobId && Unfinished(r.db.items.rows[i]) ==>
                  var item := r.db.items.rows[i];
                  && item.formatVersion.Some? && item.formatVersion.value != 0 && item.fingerprint.Some? && item.fingerprint.value != ""
                  && (if item.targetType == EntryCommentary then item.entryId.Some? && item.entryId.value in job.snapshot else item.entryId.None?)))
  {
    hide RequeueRunning, CancelJob, Reacquire;
    var job := r.db.jobs.rows[jobId];
    var ids := UnfinishedItems(r.db.items, jobId, r.db.items.next);
    if RecoverJob(r, jobId).recovered == r.recovered + [jobId] {
      assert SnapshotValid(r.db, job);
      assert Found(job.snapshot, r.db.entries.rows) == (set k | k in job.snapshot && k in r.db.entries.rows);
      AllFound(job.snapshot, r.db.entries.rows);
      forall i | i in r.db.items.rows && r.db.items.rows[i].jobId == jobId && Unfinished(r.db.items.rows[i])
        ensures ValidIdentity(r.db.items.rows[i], job.snapshot)
      {
        assert i in ids;
      }
    }
  }

  // ------------------------------------------------------------------ reacquiring leases

  ghost predicate KeysDistinct(items: Table<Item>, ids: seq<int>)
    requires Leasable(items, ids)
  {
    forall m, n :: 0 <= m < n < |ids| ==> ItemKey(items.rows[ids[m]]) != ItemKey(items.rows[ids[n]])
  }

  predicate RowFor(k: Key, lease: Lease, items: map<int, Item>, ids: seq<int>) {
    && lease.holder.ForItem? && lease.holder.itemId in ids
    && lease.holder.itemId in items && ItemKey(items[lease.holder.itemId]) == Some(k)
  }

  /** Over a cleared lease table no target is busy, whatever the order: every listed item gets its
      lease, and nobody else has one. */
  lemma {:induction false} ReacquireAll(leases: LeaseTable, items: Table<Item>, ids: seq<int>)
    requires leases.Valid() && leases.rows == map[]
    requires Leasable(items, ids) && KeysDistinct(items, ids)
    ensures var got := Reacquire(leases, items, ids);
      && !got.busy && got.leases.Valid()
      && (forall k :: k in got.leases.rows ==> RowFor(k, got.leases.rows[k], items.rows, ids))
      && (forall n :: 0 <= n < |ids| ==> HoldsLease(got.leases.rows, items.rows, ids[n]))
  {
    if ids != [] {
      var n := |ids| - 1;
      ReacquireAll(leases, items, ids[..n]);
      var before := Reacquire(leases, items, ids[..n]);
      hide RowFor, HoldsLease, LeaseTable.Valid, ItemKey, KeysDistinct;
      KeyIsFree(before.leases.rows, items, ids);
      ReacquireOne(before.leases, items, ids);
    }
  }

  lemma KeyIsFree(leases: map<Key, Lease>, items: Table<Item>, ids: seq<int>)
    requires ids != [] && Leasable(items, ids) && KeysDistinct(items, ids)
    requires forall k :: k in leases ==> RowFor(k, leases[k], items.rows, ids[..|ids| - 1])
    ensures ItemKey(items.rows[ids[|ids| - 1]]).value !in leases
  {
    hide ItemKey;
    var n := |ids| - 1;
    forall k | k in leases ensures Some(k) != ItemKey(items.rows[ids[n]]) {
      assert RowFor(k, leases[k], items.rows, ids[..n]);
      var m :| 0 <= m < n && ids[..n][m] == leases[k].holder.itemId;
      assert ids[m] == ids[..n][m];
    }
  }

  lemma ReacquireOne(before: LeaseTable, items: Table<Item>, ids: seq<int>)
    requires before.Valid() && ids != [] && Leasable(items, ids)
    requires ItemKey(items.rows[ids[|ids| - 1]]).value !in before.rows
    requires forall k :: k in before.rows ==> RowFor(k, before.rows[k], items.rows, ids[..|ids| - 1])
    requires var front := ids[..|ids| - 1]; forall n :: 0 <= n < |front| ==> HoldsLease(before.rows, items.rows, front[n])
    ensures var after := before.Add(ItemKey(items.rows[ids[|ids| - 1]]).value, Background, ForItem(ids[|ids| - 1]));
      && after.Valid()
      && (forall k :: k in after.rows ==> RowFor(k, after.rows[k], items.rows, ids))
      && (forall n :: 0 <= n < |ids| ==> HoldsLease(after.rows, items.rows, ids[n]))
  {
    hide ItemKey;
    var n := |ids| - 1;
    var key := ItemKey(items.rows[ids[n]]).value;
    AddStaysValid(before, key, ForItem(ids[n]));
    hide LeaseTable.Valid;
    var after := before.Add(key, Background, ForItem(ids[n]));
    forall k | k in after.rows ensures RowFor(k, after.rows[k], items.rows, ids) {
      hide HoldsLease;
      if k != key {
        assert RowFor(k, before.rows[k], items.rows, ids[..n]);
      }
    }
    forall m | 0 <= m < |ids| ensures HoldsLease(after.rows, items.rows, ids[m]) {
      hide RowFor;
      if m < n {
        assert HoldsLease(before.rows, items.rows, ids[..n][m]);
      }
    }
  }

  // ------------------------------------------------------------------ what recovery does

  predicate Resumable(jobs: map<int, Job>, j: int) {
    j in jobs && jobs[j].status == JobRunning && jobs[j].snapshotCount.Some?
  }

  predicate Abandoned(jobs: map<int, Job>, j: int) {
    j in jobs && jobs[j].status == JobRunning && jobs[j].snapshotCount.None?
  }

  /** The items after recovery: those of abandoned jobs that were unfinished are gone, those of
      resumed jobs wait again, everything else is untouched. */
  function RecoveredItems(jobs: map<int, Job>, items: map<int, Item>): map<int, Item> {
    map i | i in items && !(Unfinished(items[i]) && Abandoned(jobs, items[i].jobId))
      :: if items[i].status == Running then items[i].(status := Pending) else items[i]
  }

  /** The unfinished items of abandoned jobs. */
  function Discarded(jobs: map<int, Job>, items: map<int, Item>): set<int> {
    set i | i in items && Unfinished(items[i]) && Abandoned(jobs, items[i].jobId)
  }

  lemma {:induction false} DistinctCount(ids: seq<int>)
    requires forall m, n :: 0 <= m < n < |ids| ==> ids[m] < ids[n]
    ensures |set i: int | i in ids| == |ids|
  {
    if ids != [] {
      var n := |ids| - 1;
      DistinctCount(ids[..n]);
      assert ids == ids[..n] + [ids[n]];
      assert (set i: int | i in ids) == (set i: int | i in ids[..n]) + {ids[n]};
    }
  }

  lemma DiscardedCount(jobs: Table<Job>, items: Table<Item>, j: int)
    requires items.Valid() && Abandoned(jobs.rows, j)
    requires forall i :: i in items.rows && Unfinished(items.rows[i]) ==> items.rows[i].jobId == j
    ensures |UnfinishedItems(items, j, items.next)| == |Discarded(jobs.rows, items.rows)|
  {
    var ids := UnfinishedItems(items, j, items.next);
    DistinctCount(ids);
    forall i: int ensures i in Discarded(jobs.rows, items.rows) <==> i in (set i: int | i in ids) {
    }
    assert Discarded(jobs.rows, items.rows) == (set i: int | i in ids);
  }

  lemma NoneDiscarded(jobs: map<int, Job>, items: map<int, Item>)
    requires forall j :: j in jobs ==> !Abandoned(jobs, j)
    ensures Discarded(jobs, items) == {}
  {
    forall i: int ensures i !in Discarded(jobs, items) {
    }
  }

  function RecoveredJobs(jobs: map<int, Job>): map<int, Job> {
    map j | j in jobs :: if Abandoned(jobs, j) then jobs[j].(status := JobCancelled) else jobs[j]
  }

  /** One lease per unfinished item, under its own key and on its behalf, and no other lease. */
  ghost predicate ExactlyTheirLeases(leases: map<Key, Lease>, items: map<int, Item>) {
    && (forall i :: i in items && Unfinished(items[i]) ==> HoldsLease(leases, items, i))
    && (forall k :: k in leases ==>
          && leases[k].holder.ForItem? && leases[k].holder.itemId in items
          && ItemKey(items[leases[k].holder.itemId]) == Some(k)
          && Unfinished(items[leases[k].holder.itemId]))
  }

  /** The whole outcome of recovery. */
  ghost predicate RecoveredExactly(db: Db, r: Recovery) {
    && (forall j :: j in r.recovered <==> Resumable(db.jobs.rows, j))
    && (forall j :: j in r.cancelled <==> Abandoned(db.jobs.rows, j))
    && r.db == db.(leases := r.db.leases, items := r.db.items, jobs := r.db.jobs)
    && r.db.items == Table(RecoveredItems(db.jobs.rows, db.items.rows), db.items.next)
    && r.db.jobs == Table(RecoveredJobs(db.jobs.rows), db.jobs.next)
    && r.discarded == |Discarded(db.jobs.rows, db.items.rows)|
    && r.db.leases.Valid()
    && ExactlyTheirLeases(r.db.leases.rows, r.db.items.rows)
    && (forall i :: i in r.db.items.rows ==> r.db.items.rows[i].status != Running)
  }

  lemma TheRunningJob(jobs: Table<Job>)
    requires jobs.Valid() && OneRunning(jobs.rows)
    ensures |RunningJobs(jobs, jobs.next)| <= 1
    ensures forall j :: j in jobs.rows ==> (jobs.rows[j].status == JobRunning <==> j in RunningJobs(jobs, jobs.next))
  {
    var ids := RunningJobs(jobs, jobs.next);
    var a, b := if |ids| > 1 then ids[0] else 0, if |ids| > 1 then ids[1] else 0;
    assert |ids| > 1 ==> a in jobs.rows && b in jobs.rows && a < b;
  }

  /** The item and job tables after recovery, when every unfinished item is the running job's. */
  lemma RecoveredRows(jobs: Table<Job>, items: Table<Item>, j: int)
    requires forall i :: i in items.rows && Unfinished(items.rows[i]) ==> items.rows[i].jobId == j
    requires j in jobs.rows && forall k :: k in jobs.rows ==> (jobs.rows[k].status == JobRunning <==> k == j)
    ensures jobs.rows[j].snapshotCount.None? ==>
      && DropUnfinished(items, j) == Table(RecoveredItems(jobs.rows, items.rows), items.next)
      && jobs.rows[j := jobs.rows[j].(status := JobCancelled)] == RecoveredJobs(jobs.rows)
    ensures jobs.rows[j].snapshotCount.Some? ==>
      && RequeueRunning(items, j) == Table(RecoveredItems(jobs.rows, items.rows), items.next)
      && jobs.rows == RecoveredJobs(jobs.rows)
  {
    var kept := if jobs.rows[j].snapshotCount.None? then DropUnfinished(items, j).rows else RequeueRunning(items, j).rows;
    var after := RecoveredItems(jobs.rows, items.rows);
    forall i: int ensures i in kept <==> i in after {
    }
    forall i: int | i in kept ensures kept[i] == after[i] {
    }
    SameMap(kept, after);
    var left := if jobs.rows[j].snapshotCount.None? then jobs.rows[j := jobs.rows[j].(status := JobCancelled)] else jobs.rows;
    forall k: int | k in left ensures left[k] == RecoveredJobs(jobs.rows)[k] {
    }
    SameMap(left, RecoveredJobs(jobs.rows));
  }

  lemma NothingChanges(jobs: map<int, Job>, items: map<int, Item>)
    requires forall i :: i in items ==> !Unfinished(items[i])
    requires forall j :: j in jobs ==> jobs[j].status != JobRunning
    ensures RecoveredItems(jobs, items) == items && RecoveredJobs(jobs) == jobs
  {
    var after := RecoveredItems(jobs, items);
    forall i: int ensures i in items <==> i in after {
    }
    forall i: int | i in items ensures items[i] == after[i] {
    }
    SameMap(after, items);
    forall j: int | j in jobs ensures RecoveredJobs(jobs)[j] == jobs[j] {
    }
    SameMap(RecoveredJobs(jobs), jobs);
  }

  lemma NothingRunning(env: Env, db: Db, nextAct: int, history: seq<Produced>)
    requires Stored(env, db, nextAct, history) && RunningJobs(db.jobs, db.jobs.next) == []
    ensures RecoveredExactly(db, Recover(db))
  {
    hide EntriesValid, PromptsValid, ResultsValid, JobsOk, BaselinesOk, TargetsDistinct, HistoryOrdered, HistoryOk, ChatOk, ItemGood;
    TheRunningJob(db.jobs);
    assert forall j :: j in db.jobs.rows ==> db.jobs.rows[j].status != JobRunning;
    NothingUnfinished(env, db.entries.rows, db.prompts.rows, db.jobs.rows, db.items.rows);
    var r := Recover(db);
    assert r == Recovery(ClearLeases(db), [], [], 0);
    NothingChanges(db.jobs.rows, db.items.rows);
    NoneDiscarded(db.jobs.rows, db.items.rows);
    hide Discarded;
    hide RecoveredItems, RecoveredJobs;
  }

  lemma RecoverOne(db: Db, j: int)
    requires j in db.jobs.rows && RunningJobs(db.jobs, db.jobs.next) == [j]
    ensures Recover(db) == RecoverJob(Recovery(ClearLeases(db), [], [], 0), j)
  {
    var r0 := Recovery(ClearLeases(db), [], [], 0);
    assert [j][..0] == [];
    assert RecoverJobs(r0, []) == r0;
    assert RecoverJobs(r0, [j]) == RecoverJob(r0, j);
  }

  /** Only the running job has unfinished items. */
  lemma UnfinishedOfRunning(env: Env, entries: Entries, prompts: map<int, Prompt>, jobs: map<int, Job>, items: map<int, Item>, j: int)
    requires ItemsOk(env, entries, prompts, jobs, items) && OneRunning(jobs) && j in jobs && jobs[j].status == JobRunning
    ensures forall i :: i in items && Unfinished(items[i]) ==> items[i].jobId == j
  {
    hide ItemGood;
  }

  lemma AbandonTheJob(env: Env, db: Db, nextAct: int, history: seq<Produced>, j: int)
    requires Stored(env, db, nextAct, history) && j in db.jobs.rows
    requires RunningJobs(db.jobs, db.jobs.next) == [j] && db.jobs.rows[j].snapshotCount.None?
    ensures RecoveredExactly(db, Recover(db))
  {
    hide EntriesValid, PromptsValid, ResultsValid, JobsOk, BaselinesOk, TargetsDistinct, HistoryOrdered, HistoryOk, ChatOk, ItemsOk;
    hide RecoveredItems, RecoveredJobs, DropUnfinished, RunningJobs, UnfinishedItems, Recover;
    TheRunningJob(db.jobs);
    assert j in [j];
    UnfinishedOfRunning(env, db.entries.rows, db.prompts.rows, db.jobs.rows, db.items.rows, j);
    RecoverOne(db, j);
    var r := Recover(db);
    assert r.db == CancelJob(ClearLeases(db), j) && r.cancelled == [] + [j] && r.recovered == [];
    RecoveredRows(db.jobs, db.items, j);
    NoneUnfinished(db.jobs.rows, db.items.rows, j);
    DiscardedCount(db.jobs, db.items, j);
    hide Discarded;
    forall k ensures k in r.recovered <==> Resumable(db.jobs.rows, k) {
    }
    forall k ensures k in r.cancelled <==> Abandoned(db.jobs.rows, k) {
    }
    assert r.db == db.(leases := r.db.leases, items := r.db.items, jobs := r.db.jobs);
    assert r.db.items == Table(RecoveredItems(db.jobs.rows, db.items.rows), db.items.next);
    assert r.db.jobs == Table(RecoveredJobs(db.jobs.rows), db.jobs.next);
    assert r.db.leases.Valid();
    assert forall i :: i in r.db.items.rows ==> r.db.items.rows[i].status != Running;
    assert ExactlyTheirLeases(r.db.leases.rows, r.db.items.rows);
  }

  lemma NoneUnfinished(jobs: map<int, Job>, items: map<int, Item>, j: int)
    requires Abandoned(jobs, j) && forall i :: i in items && Unfinished(items[i]) ==> items[i].jobId == j
    ensures forall i :: i in RecoveredItems(jobs, items) ==> !Unfinished(RecoveredItems(jobs, items)[i])
  {
  }

  lemma ResumeTheJob(env: Env, db: Db, nextAct: int, history: seq<Produced>, j: int)
    requires Stored(env, db, nextAct, history) && j in db.jobs.rows
    requires RunningJobs(db.jobs, db.jobs.next) == [j] && db.jobs.rows[j].snapshotCount.Some?
    ensures RecoveredExactly(db, Recover(db))
  {
    hide EntriesValid, PromptsValid, ResultsValid, JobsOk, BaselinesOk, HistoryOrdered, HistoryOk, ChatOk, ItemsOk;
    hide ValidIdentity, SnapshotValid, Reacquire, RecoveredItems, RecoveredJobs, RequeueRunning, ExactlyTheirLeases, RunningJobs, Unfinished, Recover;
    hide RowFor, HoldsLease, UnfinishedItems, KeysDistinct;
    TheRunningJob(db.jobs);
    assert j in [j];
    UnfinishedOfRunning(env, db.entries.rows, db.prompts.rows, db.jobs.rows, db.items.rows, j);
    RecoverOne(db, j);
    var ids := UnfinishedItems(db.items, j, db.items.next);
    SnapshotSame(db, ClearLeases(db), j);
    SnapshotStillValid(db, j);
    IdentitiesStillValid(env, db, j, ids);
    ResumeKeys(db, j, ids);
    var cleared := ClearLeases(db).leases;
    ReacquireAll(cleared, db.items, ids);
    var got := Reacquire(cleared, db.items, ids);
    var r := Recover(db);
    assert r.db == ClearLeases(db).(leases := got.leases, items := RequeueRunning(db.items, j));
    assert r.recovered == [] + [j] && r.cancelled == [];
    RecoveredRows(db.jobs, db.items, j);
    ResumeLeases(db, j, ids, got.leases.rows);
    NoneDiscarded(db.jobs.rows, db.items.rows);
    forall k ensures k in r.recovered <==> Resumable(db.jobs.rows, k) {
    }
    forall k ensures k in r.cancelled <==> Abandoned(db.jobs.rows, k) {
    }
    assert r.db == db.(leases := r.db.leases, items := r.db.items, jobs := r.db.jobs);
  }

  lemma SnapshotSame(db: Db, later: Db, j: int)
    requires j in db.jobs.rows && db.jobs.rows[j].snapshotCount.Some? && later == db.(leases := later.leases)
    ensures SnapshotValid(later, db.jobs.rows[j]) == SnapshotValid(db, db.jobs.rows[j])
  {
  }

  lemma ResumeKeys(db: Db, j: int, ids: seq<int>)
    requires TargetsDistinct(db.jobs.rows, db.items.rows) && j in db.jobs.rows && db.jobs.rows[j].snapshotCount.Some?
    requires ids == UnfinishedItems(db.items, j, db.items.next) && Leasable(db.items, ids)
    ensures KeysDistinct(db.items, ids)
  {
    hide ItemKey;
    forall m, n | 0 <= m < n < |ids| ensures ItemKey(db.items.rows[ids[m]]) != ItemKey(db.items.rows[ids[n]]) {
      var a, b := ids[m], ids[n];
      assert a < b;
      assert InFlight(db.jobs.rows, db.items.rows, a) && InFlight(db.jobs.rows, db.items.rows, b);
    }
  }

  lemma ResumeLeases(db: Db, j: int, ids: seq<int>, leases: map<Key, Lease>)
    requires db.items.Valid() && j in db.jobs.rows && ids == UnfinishedItems(db.items, j, db.items.next)
    requires forall i :: i in db.items.rows && Unfinished(db.items.rows[i]) ==> db.items.rows[i].jobId == j
    requires forall k :: k in leases ==> RowFor(k, leases[k], db.items.rows, ids)
    requires forall n :: 0 <= n < |ids| ==> HoldsLease(leases, db.items.rows, ids[n])
    ensures ExactlyTheirLeases(leases, RequeueRunning(db.items, j).rows)
    ensures forall i :: i in RequeueRunning(db.items, j).rows ==> RequeueRunning(db.items, j).rows[i].status != Running
  {
    hide UnfinishedItems;
    var later := RequeueRunning(db.items, j).rows;
    RequeueKeeps(db.items, j);
    hide ItemKey, RequeueRunning;
    forall i | i in later && Unfinished(later[i]) ensures HoldsLease(leases, later, i) {
      assert i in ids;
      var n :| 0 <= n < |ids| && ids[n] == i;
      assert HoldsLease(leases, db.items.rows, ids[n]);
    }
    forall k | k in leases
      ensures leases[k].holder.ForItem? && leases[k].holder.itemId in later
      ensures ItemKey(later[leases[k].holder.itemId]) == Some(k) && Unfinished(later[leases[k].holder.itemId])
    {
      assert RowFor(k, leases[k], db.items.rows, ids);
      var i := leases[k].holder.itemId;
      var n :| 0 <= n < |ids| && ids[n] == i;
      assert Unfinished(db.items.rows[ids[n]]);
    }
  }

  lemma RequeueKeeps(items: Table<Item>, j: int)
    requires forall i :: i in items.rows && Unfinished(items.rows[i]) ==> items.rows[i].jobId == j
    ensures RequeueRunning(items, j).rows.Keys == items.rows.Keys
    ensures forall i :: i in items.rows ==>
      && i in RequeueRunning(items, j).rows
      && ItemKey(RequeueRunning(items, j).rows[i]) == ItemKey(items.rows[i])
      && (Unfinished(RequeueRunning(items, j).rows[i]) <==> Unfinished(items.rows[i]))
      && RequeueRunning(items, j).rows[i].status != Running
  {
    var later := RequeueRunning(items, j).rows;
    assert forall i :: i in later <==> i in items.rows;
  }

  /** From every stored state the protocol can crash in: recovery resumes exactly the running jobs
      that have a snapshot and cancels exactly those that have none, leaves no item running, gives
      exactly one lease to every unfinished item and none to anybody else, and touches no finished
      item, result, prompt, entry or message. Its refusals (invalid identity, invalid snapshot,
      busy target) never happen. */
  lemma RecoveryCompleteAndExact(env: Env, db: Db, nextAct: int, history: seq<Produced>)
    requires Stored(env, db, nextAct, history)
    ensures RecoveredExactly(db, Recover(db))
  {
    hide Stored, Recover, RecoveredExactly;
    var ids := RunningJobs(db.jobs, db.jobs.next);
    assert |ids| <= 1 by { RunningAtMostOne(env, db, nextAct, history); }
    if ids == [] {
      NothingRunning(env, db, nextAct, history);
    } else {
      var j := ids[0];
      assert ids == [j];
      if db.jobs.rows[j].snapshotCount.None? {
        AbandonTheJob(env, db, nextAct, history, j);
      } else {
        ResumeTheJob(env, db, nextAct, history, j);
      }
    }
  }

  lemma RunningAtMostOne(env: Env, db: Db, nextAct: int, history: seq<Produced>)
    requires Stored(env, db, nextAct, history)
    ensures |RunningJobs(db.jobs, db.jobs.next)| <= 1
  {
    hide EntriesValid, PromptsValid, ResultsValid, JobsOk, BaselinesOk, HistoryOrdered, HistoryOk, ChatOk, ItemsOk, TargetsDistinct;
    TheRunningJob(db.jobs);
  }

  // ------------------------------------------------------------------ the restarted process

  lemma RecoveredWork(env: Env, db: Db, r: Recovery, history: seq<Produced>)
    requires RecoveredExactly(db, r) && db.jobs.Valid() && db.items.Valid()
    requires JobsOk(db.entries.rows, db.prompts.rows, db.jobs.rows) && OneRunning(db.jobs.rows)
    requires ItemsOk(env, db.entries.rows, db.prompts.rows, db.jobs.rows, db.items.rows)
    requires BaselinesOk(db.jobs.rows, db.items.rows, db.commentary, db.reports) && TargetsDistinct(db.jobs.rows, db.items.rows)
    requires HistoryOk(db.jobs.rows, db.items, history)
    ensures r.db.jobs.Valid() && r.db.items.Valid()
    ensures JobsOk(db.entries.rows, db.prompts.rows, r.db.jobs.rows) && OneRunning(r.db.jobs.rows)
    ensures ItemsOk(env, db.entries.rows, db.prompts.rows, r.db.jobs.rows, r.db.items.rows)
    ensures BaselinesOk(r.db.jobs.rows, r.db.items.rows, db.commentary, db.reports) && TargetsDistinct(r.db.jobs.rows, r.db.items.rows)
    ensures HistoryOk(r.db.jobs.rows, r.db.items, history)
  {
    RecoveredTables(db, r);
    RequeuedGood(env, db, r);
    RecoveredInFlight(db, r);
    RecoveredHistory(db, r, history);
    hide RecoveredExactly, JobsOk, OneRunning, ItemsOk, BaselinesOk, TargetsDistinct, HistoryOk;
  }

  lemma RecoveredTables(db: Db, r: Recovery)
    requires RecoveredExactly(db, r) && db.jobs.Valid() && db.items.Valid()
    requires JobsOk(db.entries.rows, db.prompts.rows, db.jobs.rows) && OneRunning(db.jobs.rows)
    ensures r.db.jobs.Valid() && r.db.items.Valid()
    ensures JobsOk(db.entries.rows, db.prompts.rows, r.db.jobs.rows) && OneRunning(r.db.jobs.rows)
  {
    hide SortedIds, ExactlyTheirLeases, Discarded;
  }

  /** What was in flight stays what it was, or is gone. */
  lemma RecoveredItem(db: Db, r: Recovery, i: int)
    requires RecoveredExactly(db, r)
    ensures Backed(r.db.jobs.rows, r.db.items.rows, i) ==>
      && Backed(db.jobs.rows, db.items.rows, i)
      && SameWork(db.items.rows[i], r.db.items.rows[i]) && (r.db.items.rows[i].status == Ok <==> db.items.rows[i].status == Ok)
      && r.db.items.rows[i].resultId == db.items.rows[i].resultId
      && ItemKey(r.db.items.rows[i]) == ItemKey(db.items.rows[i])
    ensures InFlight(r.db.jobs.rows, r.db.items.rows, i) ==> InFlight(db.jobs.rows, db.items.rows, i)
  {
    hide ExactlyTheirLeases, Discarded;
  }

  lemma RecoveredInFlight(db: Db, r: Recovery)
    requires RecoveredExactly(db, r)
    requires BaselinesOk(db.jobs.rows, db.items.rows, db.commentary, db.reports) && TargetsDistinct(db.jobs.rows, db.items.rows)
    ensures BaselinesOk(r.db.jobs.rows, r.db.items.rows, db.commentary, db.reports) && TargetsDistinct(r.db.jobs.rows, r.db.items.rows)
  {
    hide RecoveredExactly, Current, ItemKey;
    forall i ensures InFlight(r.db.jobs.rows, r.db.items.rows, i) ==>
      InFlight(db.jobs.rows, db.items.rows, i) && SameWork(db.items.rows[i], r.db.items.rows[i])
      && ItemKey(r.db.items.rows[i]) == ItemKey(db.items.rows[i])
    {
      RecoveredItem(db, r, i);
    }
  }

  lemma RecoveredHistory(db: Db, r: Recovery, history: seq<Produced>)
    requires RecoveredExactly(db, r) && HistoryOk(db.jobs.rows, db.items, history)
    ensures HistoryOk(r.db.jobs.rows, r.db.items, history)
  {
    assert r.db.items.next == db.items.next;
    hide RecoveredExactly, Contributions, Backed, ItemKey;
    forall i | Backed(r.db.jobs.rows, r.db.items.rows, i)
      ensures i in r.db.items.rows
      ensures if r.db.items.rows[i].status == Ok then RecordedOnce(r.db.items.rows[i], history, i) else Contributions(history, i) == 0
    {
      RecoveredItem(db, r, i);
      BackedIn(r.db.jobs.rows, r.db.items.rows, i);
      BackedIn(db.jobs.rows, db.items.rows, i);
    }
  }

  lemma BackedIn(jobs: map<int, Job>, items: map<int, Item>, i: int)
    requires Backed(jobs, items, i)
    ensures i in items
  {
  }

  lemma RequeuedGood(env: Env, db: Db, r: Recovery)
    requires RecoveredExactly(db, r)
    requires ItemsOk(env, db.entries.rows, db.prompts.rows, db.jobs.rows, db.items.rows)
    ensures ItemsOk(env, db.entries.rows, db.prompts.rows, r.db.jobs.rows, r.db.items.rows)
  {
    hide ExactlyTheirLeases;
    forall i | i in r.db.items.rows && db.jobs.rows[db.items.rows[i].jobId].snapshotCount.Some?
      ensures ItemGood(env, db.entries.rows, db.prompts.rows[db.jobs.rows[db.items.rows[i].jobId].promptId],
                       db.jobs.rows[db.items.rows[i].jobId].snapshot, r.db.items.rows[i])
    {
      assert ItemGood(env, db.entries.rows, db.prompts.rows[db.jobs.rows[db.items.rows[i].jobId].promptId],
                      db.jobs.rows[db.items.rows[i].jobId].snapshot, db.items.rows[i]);
    }
  }

  lemma RestartedProcess(env: Env, db: Db, r: Recovery, nextAct: int, workers: map<int, Worker>)
    requires RecoveredExactly(db, r)
    requires workers == map j | j in r.recovered :: Worker(true, Scheduled, false)
    ensures LeasesOk(r.db.leases.rows, r.db.items.rows, map[], map[])
    ensures TasksOk(r.db.items.rows, workers, map[]) && WorkersOk(r.db.jobs.rows, workers)
    ensures ActsOk(r.db.entries.rows, r.db.prompts.rows, r.db.sessions.rows, r.db.logs, map[], nextAct)
    ensures BusyOk(env, r.db.items.rows, map[])
  {
    hide ItemKey, RecoveredItems, LeaseTable.Valid;
    assert LeasesOk(r.db.leases.rows, r.db.items.rows, map[], map[]) by {
      hide RecoveredJobs;
    }
    hide ExactlyTheirLeases;
    RecoveredWorkers(db, r, workers);
    forall j ensures BusyWithin(env.concurrency, r.db.items.rows, map[], j) {
      assert BusyTasks(r.db.items.rows, map[], j) == {};
    }
  }

  lemma RecoveredWorkers(db: Db, r: Recovery, workers: map<int, Worker>)
    requires RecoveredExactly(db, r)
    requires workers == map j | j in r.recovered :: Worker(true, Scheduled, false)
    ensures WorkersOk(r.db.jobs.rows, workers)
    ensures TasksOk(r.db.items.rows, workers, map[])
  {
    hide ItemKey, RecoveredItems, LeaseTable.Valid, ExactlyTheirLeases;
    var jobs := r.db.jobs.rows;
    forall j ensures j in workers <==> Resumable(db.jobs.rows, j) {
    }
    forall j | j in jobs ensures jobs[j].status == JobRunning <==> Resumable(db.jobs.rows, j) {
    }
  }

  lemma RestartStep(env: Env, s: State)
    requires Inv(env, s) && s.live.Down?
    ensures Inv(env, DoRestart(s))
  {
    hide EntriesValid, PromptsValid, ResultsValid, JobsOk, OneRunning, ItemsOk, BaselinesOk, TargetsDistinct, HistoryOrdered, HistoryOk, ChatOk;
    hide LeasesOk, TasksOk, WorkersOk, ActsOk, BusyOk, Recover, Table.Valid, ExactlyTheirLeases, RecoveredItems, RecoveredJobs;
    RecoveryCompleteAndExact(env, s.db, s.nextAct, s.history);
    var r := Recover(s.db);
    RecoveredWork(env, s.db, r, s.history);
    RestartedProcess(env, s.db, r, s.nextAct, DoRestart(s).live.workers);
  }
}
