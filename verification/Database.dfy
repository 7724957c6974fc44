/** The write transactions as the program runs them: step by step on the tables, with an explicit
    rollback, each proved to do what the function of the same name in Store says. */
module Database {
  import opened Tables
  import opened TargetKeys
  import opened Archive
  import opened Store

  lemma {:induction false} ClaimStopsAtFirstTaken(leases: LeaseTable, targets: seq<Prepared>, firstItem: int, n: nat)
    requires AllValid(targets) && n <= |targets|
    requires ClaimTargets(leases, targets[..n], firstItem).Taken?
    ensures ClaimTargets(leases, targets, firstItem) == ClaimTargets(leases, targets[..n], firstItem)
    decreases |targets|
  {
    if n == |targets| {
      assert targets[..n] == targets;
    } else {
      var m := |targets| - 1;
      assert targets[..m][..n] == targets[..n];
      ClaimStopsAtFirstTaken(leases, targets[..m], firstItem, n);
    }
  }

  lemma ClaimOneMore(leases: LeaseTable, targets: seq<Prepared>, firstItem: int, n: nat)
    requires AllValid(targets) && n < |targets|
    requires ClaimTargets(leases, targets[..n], firstItem).Claimed?
    ensures var l := ClaimTargets(leases, targets[..n], firstItem).leases;
      var key := targets[n].Key();
      ClaimTargets(leases, targets[..n + 1], firstItem)
        == if key in l.rows then Taken(key) else Claimed(l.Add(key, Background, ForItem(firstItem + n)))
  {
    assert targets[..n + 1][..n] == targets[..n] && targets[..n + 1][n] == targets[n];
  }

  lemma AddOneMore(db: Db, jobId: int, targets: seq<Prepared>, n: nat)
    requires n < |targets|
    ensures AddItems(db, jobId, targets[..n + 1]) == AddItems(db, jobId, targets[..n]).Insert(NewItem(db, jobId, targets[n]))
  {
    assert targets[..n + 1][..n] == targets[..n] && targets[..n + 1][n] == targets[n];
  }

  lemma {:induction false} ReacquireStopsAtFirstBusy(leases: LeaseTable, items: Table<Item>, ids: seq<int>, n: nat)
    requires Leasable(items, ids) && n <= |ids|
    requires Reacquire(leases, items, ids[..n]).busy
    ensures Reacquire(leases, items, ids) == Reacquire(leases, items, ids[..n])
    decreases |ids|
  {
    if n == |ids| {
      assert ids[..n] == ids;
    } else {
      var m := |ids| - 1;
      assert ids[..m][..n] == ids[..n];
      ReacquireStopsAtFirstBusy(leases, items, ids[..m], n);
    }
  }

  /** A new item's baseline depends only on the result tables. */
  lemma {:induction false} SameNewItems(db: Db, other: Db, jobId: int, targets: seq<Prepared>)
    requires other.commentary == db.commentary && other.reports == db.reports
    ensures AddItems(other.(items := db.items), jobId, targets) == AddItems(db, jobId, targets)
  {
    if targets != [] {
      SameNewItems(db, other, jobId, targets[..|targets| - 1]);
    }
  }

  predicate KeyAmong(k: Key, items: Table<Item>, ids: seq<int>) {
    exists n :: 0 <= n < |ids| && ids[n] in items.rows && ItemKey(items.rows[ids[n]]) == Some(k)
  }

  lemma KeyAmongOneMore(items: Table<Item>, ids: seq<int>, n: nat)
    requires n < |ids| && ids[n] in items.rows
    ensures forall k :: KeyAmong(k, items, ids[..n + 1]) <==> KeyAmong(k, items, ids[..n]) || ItemKey(items.rows[ids[n]]) == Some(k)
  {
    hide ItemKey;
    var before, after := ids[..n], ids[..n + 1];
    assert forall m :: 0 <= m < n ==> after[m] == before[m];
    assert after[n] == ids[n];
  }

  lemma AllKeysAmong(items: Table<Item>, jobId: int)
    requires items.Valid()
    ensures forall k :: KeyAmong(k, items, UnfinishedItems(items, jobId, items.next)) <==> k in UnfinishedKeys(items, jobId)
  {
    hide ItemKey;
    var ids := UnfinishedItems(items, jobId, items.next);
    forall i | i in items.rows && items.rows[i].jobId == jobId && Unfinished(items.rows[i]) ensures exists n :: 0 <= n < |ids| && ids[n] == i {
      assert i in ids;
    }
  }

  lemma RecoverOneMore(start: Recovery, ids: seq<int>, n: nat)
    requires n < |ids| && forall i :: 0 <= i < |ids| ==> ids[i] in start.db.jobs.rows
    ensures RecoverJobs(start, ids[..n]).db.jobs.rows.Keys == start.db.jobs.rows.Keys
    ensures ids[n] in RecoverJobs(start, ids[..n]).db.jobs.rows
    ensures RecoverJobs(start, ids[..n + 1]) == RecoverJob(RecoverJobs(start, ids[..n]), ids[n])
  {
    assert ids[..n + 1][..n] == ids[..n] && ids[..n + 1][n] == ids[n];
    assert ids[n] in RecoverJobs(start, ids[..n]).db.jobs.rows.Keys;
  }

  lemma ProperItemsAreLeasable(items: Table<Item>, ids: seq<int>, snapshot: seq<int>)
    requires forall n :: 0 <= n < |ids| ==> ids[n] in items.rows && ValidIdentity(items.rows[ids[n]], snapshot)
    ensures Leasable(items, ids)
  {
  }

  ghost predicate AllProper(items: Table<Item>, ids: seq<int>, snapshot: seq<int>) {
    forall n :: 0 <= n < |ids| ==> ids[n] in items.rows && ValidIdentity(items.rows[ids[n]], snapshot)
  }

  /** The three ways recovery treats a job. */
  lemma RecoverJobCases(r: Recovery, jobId: int)
    requires jobId in r.db.jobs.rows
    ensures var job, ids := r.db.jobs.rows[jobId], UnfinishedItems(r.db.items, jobId, r.db.items.next);
      if job.snapshotCount.None? || !AllProper(r.db.items, ids, job.snapshot) || !SnapshotValid(r.db, job) then
        RecoverJob(r, jobId) == Cancelled(r, r.db, jobId)
      else
        && Leasable(r.db.items, ids)
        && var got := Reacquire(r.db.leases, r.db.items, ids);
           RecoverJob(r, jobId) ==
             if got.busy then Cancelled(r, r.db.(leases := got.leases.DropIds(got.taken)), jobId)
             else Recovery(r.db.(leases := got.leases, items := RequeueRunning(r.db.items, jobId)), r.recovered + [jobId], r.cancelled, r.discarded)
  {
    hide SnapshotValid, Reacquire, RequeueRunning, Cancelled, PreparedOf;
    var job, ids := r.db.jobs.rows[jobId], UnfinishedItems(r.db.items, jobId, r.db.items.next);
    hide UnfinishedItems;
    if AllProper(r.db.items, ids, job.snapshot) {
      ProperItemsAreLeasable(r.db.items, ids, job.snapshot);
    }
  }

  class Database {
    var entries: Table<Entry>
    var prompts: Table<Prompt>
    var activePrompt: Option<int>
    var commentary: Table<ResultRow>
    var reports: Table<ResultRow>
    var jobs: Table<Job>
    var items: Table<Item>
    var leases: LeaseTable
    var sessions: Table<string>
    var logs: map<Key, seq<Message>>
    var locked: bool

    constructor (db: Db)
      ensures State() == db
    {
      entries, prompts, activePrompt, commentary, reports := db.entries, db.prompts, db.activePrompt, db.commentary, db.reports;
      jobs, items, leases, sessions, logs, locked := db.jobs, db.items, db.leases, db.sessions, db.logs, db.locked;
    }

    function State(): Db
      reads this
    {
      Db(entries, prompts, activePrompt, commentary, reports, jobs, items, leases, sessions, logs, locked)
    }

    /** ROLLBACK. */
    method Rollback(begin: Db)
      modifies this
      ensures State() == begin
    {
      entries, prompts, activePrompt, commentary, reports := begin.entries, begin.prompts, begin.activePrompt, begin.commentary, begin.reports;
      jobs, items, leases, sessions, logs, locked := begin.jobs, begin.items, begin.leases, begin.sessions, begin.logs, begin.locked;
    }

    // ---------------------------------------------------------------- leases and maintenance

    method AcquireLease(key: Key, kind: LeaseKind, holder: Holder) returns (r: Result<int, Refusal>)
      modifies this
      ensures (State(), r) == Store.AcquireLease(old(State()), key, kind, holder)
    {
      if locked {
        return Failure(MaintenanceLocked);
      }
      if key in leases.rows {
        return Failure(TargetBusy(key));
      }
      r := Success(leases.next);
      leases := leases.Add(key, kind, holder);
    }

    method ReleaseLease(id: int)
      modifies this
      ensures State() == Store.ReleaseLease(old(State()), id)
    {
      leases := leases.DropId(id);
    }

    method ReleaseLeaseByTarget(key: Option<Key>)
      modifies this
      ensures State() == ReleaseTarget(old(State()), key)
    {
      if key.Some? {
        leases := leases.DropKey(key.value);
      }
    }

    /** Maintenance ends exactly if no job runs and nobody holds a lease; the flag is all that changes,
        and a refusal leaves even that. */
    method UnlockMaintenanceIfIdle() returns (r: Result<(), Refusal>)
      modifies this`locked
      ensures (State(), r) == UnlockIfIdle(old(State()))
      ensures r.Success? <==> (forall j :: j in jobs.rows ==> jobs.rows[j].status != JobRunning) && forall k :: k !in leases.rows
      ensures r.Success? ==> !locked
      ensures r.Failure? ==> r == Failure(GenerationActive) && locked == old(locked)
    {
      if SomeJobRunning(jobs) || leases.rows != map[] {
        return Failure(GenerationActive);
      }
      locked := false;
      r := Success(());
    }

    // ---------------------------------------------------------------- prompts

    method InsertActivatedPrompt(body: string, model: string) returns (id: int)
      modifies this
      ensures State() == ActivatePrompt(old(State()), body, model) && id == old(prompts.next)
    {
      id := prompts.next;
      prompts := prompts.Insert(Prompt(body, model));
      activePrompt := Some(id);
    }

    // ---------------------------------------------------------------- enqueue

    method EnqueueSnapshotRegenJob(prompt: PromptChoice, preflight: seq<int>, targets: seq<Prepared>) returns (r: Result<int, Refusal>)
      requires entries.Valid() && AllValid(targets)
      modifies this
      ensures (State(), r) == Enqueue(old(State()), prompt, preflight, targets)
    {
      var begin := State();
      if locked {
        return Failure(MaintenanceLocked);
      }
      if OrderedIds(entries) != preflight {
        return Failure(ArchiveChanged);
      }
      var taken := AcquireTargets(targets);
      if taken.Some? {
        Rollback(begin);
        return Failure(TargetBusy(taken.value));
      }
      var promptId;
      match prompt {
        case Existing(id) => promptId := id;
        case Activate(body, model) => promptId := InsertActivatedPrompt(body, model);
      }
      if promptId !in prompts.rows || SomeJobRunning(jobs) {
        Rollback(begin);
        return Failure(IntegrityError);
      }
      var jobId := jobs.next;
      InsertJob(promptId, preflight);
      var inserted := InsertItems(jobId, targets);
      if !inserted {
        Rollback(begin);
        return Failure(IntegrityError);
      }
      SameNewItems(begin, State(), jobId, targets);
      r := Success(jobId);
    }

    /** One exclusive background lease per target, in order, up to the first busy one. */
    method AcquireTargets(targets: seq<Prepared>) returns (taken: Option<Key>)
      requires AllValid(targets)
      modifies this`leases
      ensures match ClaimTargets(old(leases), targets, items.next)
              case Taken(key) => taken == Some(key)
              case Claimed(l) => taken == None && leases == l
    {
      ghost var before := leases;
      var n := 0;
      while n < |targets|
        invariant n <= |targets|
        invariant ClaimTargets(before, targets[..n], items.next) == Claimed(leases)
      {
        ClaimOneMore(before, targets, items.next, n);
        var key := targets[n].Key();
        if key in leases.rows {
          ClaimStopsAtFirstTaken(before, targets, items.next, n + 1);
          return Some(key);
        }
        leases := leases.Add(key, Background, ForItem(items.next + n));
        n := n + 1;
      }
      assert targets[..n] == targets;
      return None;
    }

    /** The job row, then its snapshot rows in ordinal order. */
    method InsertJob(promptId: int, preflight: seq<int>)
      modifies this`jobs
      ensures jobs == old(jobs).Insert(Job(promptId, JobRunning, Some(|preflight|), preflight))
    {
      var jobId := jobs.next;
      jobs := jobs.Insert(Job(promptId, JobRunning, Some(|preflight|), []));
      var ordinal := 0;
      while ordinal < |preflight|
        invariant ordinal <= |preflight|
        invariant jobs == old(jobs).Insert(Job(promptId, JobRunning, Some(|preflight|), preflight[..ordinal]))
      {
        var job := jobs.rows[jobId];
        jobs := jobs.Set(jobId, job.(snapshot := job.snapshot + [preflight[ordinal]]));
        ordinal := ordinal + 1;
        assert preflight[..ordinal] == preflight[..ordinal - 1] + [preflight[ordinal - 1]];
      }
      assert preflight[..ordinal] == preflight;
    }

    /** One pending item per target, each with its baseline; a missing entry violates the foreign key. */
    method InsertItems(jobId: int, targets: seq<Prepared>) returns (inserted: bool)
      modifies this`items
      ensures inserted <==> TargetsExist(entries, targets)
      ensures inserted ==> items == AddItems(old(State()), jobId, targets)
    {
      ghost var before := State();
      var n := 0;
      while n < |targets|
        invariant n <= |targets|
        invariant forall i :: 0 <= i < n && targets[i].entryId.Some? ==> targets[i].entryId.value in entries.rows
        invariant items == AddItems(before, jobId, targets[..n])
      {
        var t := targets[n];
        if t.entryId.Some? && t.entryId.value !in entries.rows {
          return false;
        }
        AddOneMore(before, jobId, targets, n);
        var baseline := CurrentResult(State(), t.targetType, t.entryId);
        items := items.Insert(Item(jobId, t.targetType, t.entryId, Pending, Some(t.formatVersion), Some(t.fingerprint), baseline, None, 0, None));
        n := n + 1;
      }
      assert targets[..n] == targets;
      return true;
    }

    // ---------------------------------------------------------------- retry

    method RetryFailedJobItem(itemId: int, expectedJob: Option<int>) returns (r: Result<int, Refusal>)
      modifies this
      ensures (State(), r) == Retry(old(State()), itemId, expectedJob)
    {
      if itemId !in items.rows {
        return Failure(StaleOrSuperseded);
      }
      var item := items.rows[itemId];
      if expectedJob.Some? && item.jobId != expectedJob.value {
        return Failure(ItemJobMismatch);
      }
      if item.status != Failed {
        return Failure(StaleOrSuperseded);
      }
      if locked {
        return Failure(MaintenanceLocked);
      }
      if item.jobId !in jobs.rows || jobs.rows[item.jobId].snapshotCount.None? {
        return Failure(StaleOrSuperseded);
      }
      if jobs.rows[item.jobId].status != JobDone {
        return Failure(StaleOrSuperseded);
      }
      var target := PreparedOf(item);
      if target.None? {
        return Failure(StaleOrSuperseded);
      }
      if !target.value.Valid() {
        return Failure(InvalidTarget);
      }
      if CurrentResult(State(), item.targetType, item.entryId) != item.baseline || NewerItem(items, itemId) {
        return Failure(StaleOrSuperseded);
      }
      var begin := State();
      var key := target.value.Key();
      if key in leases.rows {
        return Failure(TargetBusy(key));
      }
      leases := leases.Add(key, Background, ForItem(itemId));
      items := items.Set(itemId, item.(status := Pending, error := None));
      if OtherJobRunning(jobs, item.jobId) {
        Rollback(begin);
        return Failure(IntegrityError);
      }
      jobs := jobs.Set(item.jobId, jobs.rows[item.jobId].(status := JobRunning));
      r := Success(item.jobId);
    }

    // ---------------------------------------------------------------- worker transactions

    method ClaimNextPending(jobId: int) returns (r: Option<int>)
      modifies this`items
      ensures match r
              case None => State() == old(State()) && forall i :: i in items.rows && items.rows[i].jobId == jobId ==> items.rows[i].status != Pending
              case Some(i) =>
                && i in old(items.rows) && old(items.rows)[i].jobId == jobId && old(items.rows)[i].status == Pending
                && State() == ClaimItem(old(State()), i)
    {
      if i :| i in items.rows && items.rows[i].jobId == jobId && items.rows[i].status == Pending {
        items := items.Set(i, items.rows[i].(status := Running));
        return Some(i);
      }
      return None;
    }

    /** Insert the result row, delete the entry's other reflections, mark the item ok. */
    method CompleteJobItem(itemId: int, targetType: TargetType, row: ResultRow) returns (done: bool)
      requires itemId in items.rows
      modifies this
      ensures match CompleteItem(old(State()), itemId, targetType, row)
              case None => !done && State() == old(State())
              case Some(after) => done && State() == after
    {
      if row.promptId !in prompts.rows || (row.entryId.Some? && row.entryId.value !in entries.rows) {
        return false;
      }
      var resultId;
      if targetType == EntryCommentary {
        resultId := commentary.next;
        commentary := commentary.Insert(row);
        commentary := Table(PruneOthers(commentary.rows, row.entryId, resultId), commentary.next);
      } else {
        resultId := reports.next;
        reports := reports.Insert(row);
      }
      items := items.Set(itemId, items.rows[itemId].(status := Ok, resultId := Some(resultId)));
      return true;
    }

    method InsertReportRow(promptId: int, body: string)
      modifies this`reports
      ensures State() == InsertReport(old(State()), promptId, body)
    {
      reports := reports.Insert(ResultRow(None, promptId, true, body));
    }

    method FailJobItem(itemId: int, error: string)
      requires itemId in items.rows
      modifies this`items
      ensures State() == FailItem(old(State()), itemId, error)
    {
      var item := items.rows[itemId];
      items := items.Set(itemId, item.(status := Failed, error := Some(error), attempts := item.attempts + 1));
    }

    method FinalizeJob(jobId: int)
      requires jobId in jobs.rows
      modifies this`jobs
      ensures State() == Store.FinalizeJob(old(State()), jobId)
    {
      if !HasUnfinished(items, jobId) {
        jobs := jobs.Set(jobId, jobs.rows[jobId].(status := JobDone));
      }
    }

    method CancelJobAndDeleteUnfinished(jobId: int) returns (deleted: nat)
      requires jobId in jobs.rows
      modifies this`items, this`jobs
      ensures State() == CancelJob(old(State()), jobId)
      ensures deleted == |UnfinishedItems(old(items), jobId, old(items.next))|
    {
      deleted := |UnfinishedItems(items, jobId, items.next)|;
      items := DropUnfinished(items, jobId);
      jobs := jobs.Set(jobId, jobs.rows[jobId].(status := JobCancelled));
    }

    /** Release the targets of the listed items, one by one. */
    method ReleaseTargets(ids: seq<int>)
      requires forall n :: 0 <= n < |ids| ==> ids[n] in items.rows
      modifies this`leases
      ensures leases.next == old(leases.next)
      ensures forall k :: k in leases.rows <==> k in old(leases.rows) && !KeyAmong(k, items, ids)
      ensures forall k :: k in leases.rows ==> leases.rows[k] == old(leases.rows)[k]
    {
      var n := 0;
      while n < |ids|
        invariant n <= |ids|
        invariant leases.next == old(leases.next)
        invariant forall k :: k in leases.rows <==> k in old(leases.rows) && !KeyAmong(k, items, ids[..n])
        invariant forall k :: k in leases.rows ==> leases.rows[k] == old(leases.rows)[k]
      {
        var key := ItemKey(items.rows[ids[n]]);
        KeyAmongOneMore(items, ids, n);
        if key.Some? {
          leases := leases.DropKey(key.value);
        }
        n := n + 1;
      }
      assert ids[..n] == ids;
    }

    /** Release the lease of every unfinished item, then delete those items and cancel the job. */
    method CancelSetupFailure(jobId: int)
      requires jobId in jobs.rows && items.Valid()
      modifies this
      ensures State() == CancelAndRelease(old(State()), jobId)
    {
      ghost var before := leases;
      ReleaseTargets(UnfinishedItems(items, jobId, items.next));
      assert leases == LeaseTable(before.rows - UnfinishedKeys(items, jobId), before.next) by {
        AllKeysAmong(items, jobId);
        hide KeyAmong, UnfinishedItems, UnfinishedKeys;
        SameMap(leases.rows, before.rows - UnfinishedKeys(items, jobId));
      }
      hide UnfinishedItems, UnfinishedKeys, DropUnfinished;
      var _ := CancelJobAndDeleteUnfinished(jobId);
    }

    // ---------------------------------------------------------------- chat

    method InsertMessage(thread: Key, message: Message)
      modifies this`logs
      ensures State() == Say(old(State()), thread, message)
    {
      logs := logs[thread := Log(State(), thread) + [message]];
    }

    /** Session, first message and lease conversion, or nothing. */
    method CreateSessionAndConvertLease(leaseId: int, title: string, message: Message) returns (r: Result<int, Refusal>)
      requires leases.Valid()
      modifies this
      ensures (State(), r) == Handoff(old(State()), leaseId, title, message)
    {
      var begin := State();
      if !leases.HasId(leaseId) {
        return Failure(LeaseExpired);
      }
      var sessionId := sessions.next;
      var thread := ConversationKey(sessionId);
      sessions := sessions.Insert(title);
      logs := logs[thread := Log(State(), thread) + [message]];
      if thread in leases.rows && leases.rows[thread].id != leaseId {
        Rollback(begin);
        return Failure(TargetBusy(thread));
      }
      var from :| from in leases.rows && leases.rows[from].id == leaseId;
      leases := LeaseTable((leases.rows - {from})[thread := leases.rows[from]], leases.next);
      r := Success(sessionId);
    }

    method DeleteChatSession(sessionId: int, holder: Holder) returns (r: Result<(), Refusal>)
      modifies this
      ensures (State(), r) == DeleteSession(old(State()), sessionId)
    {
      var thread := ConversationKey(sessionId);
      if thread in leases.rows {
        return Failure(TargetBusy(thread));
      }
      leases := leases.Add(thread, Thread, holder);
      logs := logs - {thread};
      sessions := Table(sessions.rows - {sessionId}, sessions.next);
      leases := leases.DropKey(thread);
      SameMap(leases.rows, old(leases.rows));
      r := Success(());
    }

    // ---------------------------------------------------------------- startup recovery

    /** Leases for the listed items, in order, up to the first busy target. */
    method ReacquireLeases(ids: seq<int>) returns (taken: set<int>, busy: bool)
      requires Leasable(items, ids)
      modifies this`leases
      ensures Reacquired(leases, taken, busy) == Reacquire(old(leases), items, ids)
    {
      taken, busy := {}, false;
      var n := 0;
      while n < |ids|
        invariant n <= |ids|
        invariant Reacquired(leases, taken, false) == Reacquire(old(leases), items, ids[..n])
      {
        assert ids[..n + 1][..n] == ids[..n];
        var key := ItemKey(items.rows[ids[n]]).value;
        if key in leases.rows {
          busy := true;
          ReacquireStopsAtFirstBusy(old(leases), items, ids, n + 1);
          return;
        }
        taken := taken + {leases.next};
        leases := leases.Add(key, Background, ForItem(ids[n]));
        n := n + 1;
      }
      assert ids[..n] == ids;
    }

    /** One job left running by a crash: resume it or cancel it. */
    method RecoverOrCancelJob(ghost r: Recovery, jobId: int) returns (resumed: bool, discarded: nat)
      requires jobId in jobs.rows && r.db == State()
      modifies this
      ensures resumed ==> RecoverJob(r, jobId) == Recovery(State(), r.recovered + [jobId], r.cancelled, r.discarded)
      ensures !resumed ==> RecoverJob(r, jobId) == Recovery(State(), r.recovered, r.cancelled + [jobId], r.discarded + discarded)
    {
      hide UnfinishedItems, ValidIdentity, SnapshotValid, Reacquire, RequeueRunning, DropUnfinished, CancelJob, RecoverJob;
      RecoverJobCases(r, jobId);
      var job := jobs.rows[jobId];
      var ids := UnfinishedItems(items, jobId, items.next);
      if job.snapshotCount.None? {
        discarded := CancelJobAndDeleteUnfinished(jobId);
        return false, discarded;
      }
      if !(forall n :: 0 <= n < |ids| ==> ValidIdentity(items.rows[ids[n]], job.snapshot)) || !SnapshotValid(State(), job) {
        discarded := CancelJobAndDeleteUnfinished(jobId);
        return false, discarded;
      }
      ProperItemsAreLeasable(items, ids, job.snapshot);
      var taken, busy := ReacquireLeases(ids);
      if busy {
        leases := leases.DropIds(taken);
        discarded := CancelJobAndDeleteUnfinished(jobId);
        return false, discarded;
      }
      items := RequeueRunning(items, jobId);
      return true, 0;
    }

    method RecoverOrCancelRunningJobs() returns (recovered: seq<int>, cancelled: seq<int>, discarded: nat)
      modifies this
      ensures Recovery(State(), recovered, cancelled, discarded) == Recover(old(State()))
    {
      ghost var start := Recovery(ClearLeases(State()), [], [], 0);
      leases := LeaseTable(map[], leases.next);
      var running := RunningJobs(jobs, jobs.next);
      recovered, cancelled, discarded := [], [], 0;
      var n := 0;
      while n < |running|
        invariant n <= |running|
        invariant jobs.rows.Keys == start.db.jobs.rows.Keys
        invariant Recovery(State(), recovered, cancelled, discarded) == RecoverJobs(start, running[..n])
      {
        ghost var before := Recovery(State(), recovered, cancelled, discarded);
        RecoverOneMore(start, running, n);
        assert running[n] in start.db.jobs.rows.Keys;
        var resumed, lost := RecoverOrCancelJob(before, running[n]);
        if resumed {
          recovered := recovered + [running[n]];
        } else {
          cancelled := cancelled + [running[n]];
          discarded := discarded + lost;
        }
        assert Recovery(State(), recovered, cancelled, discarded) == RecoverJob(before, running[n]);
        n := n + 1;
      }
      assert running[..n] == running;
    }
  }
}
