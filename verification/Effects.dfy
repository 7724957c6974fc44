/** What single steps of the protocol come to, in the terms of their callers: which rows appear, what
    stays as it was, when nothing happens at all. */
module Effects {
  import opened Tables
  import opened TargetKeys
  import opened Archive
  import opened Store
  import opened GenerationSafety
  import opened SafetyInvariant
  import opened SafetySteps
  import opened WorkSteps
  import opened StartupRecovery
  import opened SafetyTheorems
  import opened Guarantees
  import opened Maintenance
  import opened RegenEnqueue

  // ------------------------------------------------------------------ writing and configuring

  /** A new entry gets the next id and exactly the date, title and text given; all else stays. */
  lemma EntryIsWritten(env: Env, s: State, date: string, title: string, text: string)
    ensures var after, id := Apply(env, s, AddEntry(date, title, text)), s.db.entries.next;
      && after == s.(db := s.db.(entries := after.db.entries))
      && after.db.entries.next == id + 1
      && after.db.entries.rows == s.db.entries.rows[id := Entry(id, date, title, text)]
  {
  }

  /** A new prompt version becomes the active one; earlier versions stay. */
  lemma PromptIsActivated(env: Env, s: State, body: string, model: string)
    requires s.live.Up? && s.db.entries.Valid()
    ensures var after, id := Apply(env, s, ApplyPrompt(body, model)), s.db.prompts.next;
      && after == s.(db := s.db.(prompts := after.db.prompts, activePrompt := Some(id)))
      && after.db.prompts.next == id + 1
      && after.db.prompts.rows == s.db.prompts.rows[id := Prompt(body, model)]
  {
  }

  /** Locking always succeeds and sets the flag alone. */
  lemma LockSetsTheFlag(env: Env, s: State)
    ensures Apply(env, s, Lock).db.locked
    ensures Apply(env, s, Lock) == s.(db := s.db.(locked := true))
  {
  }

  lemma FlagKept(env: Env, s: State, a: Action)
    requires Reachable(env, s) && s.db.locked && a != Unlock
    ensures Apply(env, s, a).db.locked
  {
    hide Reachable, Inv, Drains, RecoveredExactly, Recover, ExactlyTheirLeases, DoRestart;
    if !a.Restart? {
      LockedStepDrains(env, s, a);
      StillLocked(s.db, Apply(env, s, a).db);
    } else if s.live.Down? {
      RecoveryAfterAnyRun(env, s);
      RecoveredFlag(s.db, Recover(s.db));
    } else {
      NoRestart(env, s);
    }
  }

  lemma NoRestart(env: Env, s: State)
    requires s.live.Up?
    ensures Apply(env, s, Restart) == s
  {
  }

  lemma RecoveredFlag(db: Db, r: Recovery)
    requires RecoveredExactly(db, r)
    ensures r.db.locked == db.locked
  {
    hide ExactlyTheirLeases, RecoveredItems, RecoveredJobs, Discarded, Resumable, Abandoned;
  }

  /** Once locked, only an unlock ends it: no other step, no crash and no restart does. */
  lemma {:induction false} LockedUntilUnlocked(env: Env, s: State, actions: seq<Action>)
    requires Reachable(env, s) && forall n :: 0 <= n < |actions| ==> actions[n] != Unlock
    ensures Run(env, Apply(env, s, Lock), actions).db.locked
    ensures Reachable(env, Run(env, Apply(env, s, Lock), actions))
  {
    hide Reachable, Apply;
    if actions == [] {
      LockSetsTheFlag(env, s);
      ReachableStep(env, s, Lock);
    } else {
      var n := |actions| - 1;
      assert forall m :: 0 <= m < n ==> actions[..n][m] == actions[m];
      LockedUntilUnlocked(env, s, actions[..n]);
      var before := Run(env, Apply(env, s, Lock), actions[..n]);
      ReachableStep(env, before, actions[n]);
      FlagKept(env, before, actions[n]);
    }
  }

  // ------------------------------------------------------------------ a direct report

  /** A report request is let in exactly if maintenance is off and nobody works on the report; it holds
      the report's lease, and remembers the prompt that is active at this moment. */
  lemma ReportIsRequested(env: Env, s: State)
    requires s.live.Up? && s.db.entries.Valid()
    ensures var t, leases := Apply(env, s, StartReport), s.db.leases;
      if s.db.locked || ReportKey in leases.rows then t == s
      else
        && t.db == s.db.(leases := t.db.leases) && t.history == s.history && t.nextAct == s.nextAct + 1
        && t.db.leases.rows == leases.rows[ReportKey := Lease(leases.next, Direct, ForActivity(s.nextAct))]
        && t.db.leases.next == leases.next + 1
        && t.live == s.live.(acts := s.live.acts[s.nextAct := Activity(DirectReport(s.db.activePrompt, false), ReportKey, leases.next)])
  {
  }

  /** A saved report holds the streamed text under the prompt remembered at the start, and is the
      report's current result from then on; every earlier report, and everything else, stays. It is
      saved once. */
  lemma SavedReportIsCurrent(env: Env, s: State, a: int, text: string)
    requires Reachable(env, s) && s.live.Up?
    ensures var t, id := Apply(env, s, SaveReport(a, text)), s.db.reports.next;
      if a in s.live.acts && s.live.acts[a].kind.DirectReport? && s.live.acts[a].kind.promptId.Some? && !s.live.acts[a].kind.saved then
        var kind := s.live.acts[a].kind;
        && t.db == s.db.(reports := t.db.reports)
        && t.db.reports.rows == s.db.reports.rows[id := ResultRow(None, kind.promptId.value, true, text)] && t.db.reports.next == id + 1
        && CurrentResult(t.db, AggregateReport, None) == Some(id)
        && t.live == s.live.(acts := s.live.acts[a := s.live.acts[a].(kind := kind.(saved := true))])
        && t.history == s.history + [Produced(AggregateReport, id, ForActivity(a))] && t.nextAct == s.nextAct
      else t == s
  {
    hide Inv, Reachable, Highest;
    ReachableInv(env, s);
    EntriesTableValid(env, s);
    if a in s.live.acts && s.live.acts[a].kind.DirectReport? && s.live.acts[a].kind.promptId.Some? && !s.live.acts[a].kind.saved {
      ReportTables(env, s);
      CurrentAfterInsert(s.db.reports, ResultRow(None, s.live.acts[a].kind.promptId.value, true, text), None);
      HighestIsNew(s.db.reports, ResultRow(None, s.live.acts[a].kind.promptId.value, true, text));
    }
  }

  lemma ReportTables(env: Env, s: State)
    requires Inv(env, s)
    ensures s.db.reports.Valid() && s.db.commentary.Valid()
  {
    hide EntriesValid, PromptsValid, JobsOk, OneRunning, ItemsOk, BaselinesOk, TargetsDistinct, HistoryOrdered, HistoryOk, ChatOk, Attended;
  }

  lemma HighestIsNew(results: Table<ResultRow>, row: ResultRow)
    requires results.Valid() && row.ok
    ensures Current(results.Insert(row), row.entryId) == Some(results.next)
  {
  }

  // ------------------------------------------------------------------ turns

  /** A turn on a thread is let in exactly if the thread exists, maintenance is off and nobody else is at
      it; a refusal writes nothing. */
  lemma TurnStarts(env: Env, s: State, thread: Key)
    requires s.live.Up? && s.db.entries.Valid() && s.db.leases.Valid()
    ensures var t, leases := Apply(env, s, StartTurn(thread)), s.db.leases;
      if ThreadExists(s.db.entries.rows, s.db.sessions.rows, thread) && !s.db.locked && thread !in leases.rows then
        && t.db == s.db.(leases := t.db.leases) && t.history == s.history && t.nextAct == s.nextAct + 1
        && t.db.leases.rows == leases.rows[thread := Lease(leases.next, Thread, ForActivity(s.nextAct))]
        && t.db.leases.next == leases.next + 1
        && t.live == s.live.(acts := s.live.acts[s.nextAct := Activity(Admitted, thread, leases.next)])
      else
        t.db == s.db.(leases := t.db.leases) && t.db.leases.rows == leases.rows && t.live == s.live && t.history == s.history && t.nextAct == s.nextAct
  {
    hide LeaseTable.Valid;
    if !s.db.locked && thread !in s.db.leases.rows {
      AddThenDrop(s.db.leases, thread, Thread, ForActivity(s.nextAct));
    }
  }

  /** A new conversation's request gets a lease of its own, unless maintenance is on. */
  lemma RequestStarts(env: Env, s: State, token: string)
    requires s.live.Up? && s.db.entries.Valid()
    ensures var t, leases, key := Apply(env, s, StartRequest(token)), s.db.leases, RequestKey(token);
      if s.db.locked || key in leases.rows then t == s
      else
        && t.db == s.db.(leases := t.db.leases) && t.history == s.history && t.nextAct == s.nextAct + 1
        && t.db.leases.rows == leases.rows[key := Lease(leases.next, Request, ForActivity(s.nextAct))]
        && t.db.leases.next == leases.next + 1
        && t.live == s.live.(acts := s.live.acts[s.nextAct := Activity(RequestScoped, key, leases.next)])
  {
  }

  /** A question is appended to its thread, once; the answer can follow, once. */
  lemma QuestionIsStored(env: Env, s: State, a: int, text: string)
    requires s.live.Up? && s.db.entries.Valid()
    ensures var t := Apply(env, s, Ask(a, text));
      if a in s.live.acts && s.live.acts[a].kind == Admitted then
        var thread := s.live.acts[a].key;
        && t.db == s.db.(logs := s.db.logs[thread := (if thread in s.db.logs then s.db.logs[thread] else []) + [Message(User, a, text)]])
        && t.live == s.live.(acts := s.live.acts[a := s.live.acts[a].(kind := Turn(false))])
        && t.history == s.history && t.nextAct == s.nextAct
      else t == s
    ensures var u := Apply(env, s, Answer(a, text));
      if a in s.live.acts && s.live.acts[a].kind == Turn(false) then
        var thread := s.live.acts[a].key;
        && u.db == s.db.(logs := s.db.logs[thread := (if thread in s.db.logs then s.db.logs[thread] else []) + [Message(Assistant, a, text)]])
        && u.live == s.live.(acts := s.live.acts[a := s.live.acts[a].(kind := Turn(true))])
        && u.history == s.history && u.nextAct == s.nextAct
      else u == s
  {
  }

  // ------------------------------------------------------------------ batches

  /** The prompt a batch is prepared for: the draft about to be applied, or the active one. */
  function BatchPrompt(db: Db, draft: Option<Prompt>): Option<Prompt> {
    if draft.Some? then draft
    else if db.activePrompt.Some? && db.activePrompt.value in db.prompts.rows then Some(db.prompts.rows[db.activePrompt.value])
    else None
  }

  /** Preparing an apply-all batch writes nothing. It comes off exactly if every entry's request and the
      report's can be assembled, from the archive as it is, under the draft or the active prompt; then
      there is a target for every entry, in order, and one for the report. */
  lemma PreparedBatchIs(env: Env, s: State, draft: Option<Prompt>)
    requires s.live.Up? && s.db.entries.Valid()
    ensures var t, ids, all, prompt := Apply(env, s, PrepareAll(draft)), OrderedIds(s.db.entries), LiveArchive(s.db.entries), BatchPrompt(s.db, draft);
      if prompt.Some? && AllPreparable(env, all, prompt.value, ids) then
        && t.db == s.db && t.history == s.history && t.nextAct == s.nextAct + 1
        && t.live == s.live.(preps := t.live.preps) && s.nextAct in t.live.preps
        && t.live.preps == s.live.preps[s.nextAct := t.live.preps[s.nextAct]]
        && t.live.preps[s.nextAct].ids == ids
        && t.live.preps[s.nextAct].prompt == (if draft.Some? then Activate(draft.value.body, draft.value.model) else Existing(s.db.activePrompt.value))
        && IsBatch(env, all, prompt.value, ids, t.live.preps[s.nextAct].targets)
      else t == s
  {
    hide OrderedIds, Resolve, PreparedAll, AllPreparable, IsBatch;
    var prompt := BatchPrompt(s.db, draft);
    if prompt.Some? {
      PreparedAllIs(env, LiveArchive(s.db.entries), prompt.value, OrderedIds(s.db.entries));
    }
  }

  /** The same for one entry's reflection. */
  lemma PreparedReflectionIs(env: Env, s: State, entry: int)
    requires s.live.Up? && s.db.entries.Valid()
    ensures var t, ids, all, prompt := Apply(env, s, PrepareOne(entry)), OrderedIds(s.db.entries), LiveArchive(s.db.entries), BatchPrompt(s.db, None);
      if prompt.Some? && entry in s.db.entries.rows && Preparable(env, all, prompt.value, EntryCommentary, Some(entry)) then
        && t.db == s.db && t.history == s.history && t.nextAct == s.nextAct + 1
        && t.live == s.live.(preps := t.live.preps) && s.nextAct in t.live.preps
        && t.live.preps == s.live.preps[s.nextAct := t.live.preps[s.nextAct]]
        && t.live.preps[s.nextAct].ids == ids && t.live.preps[s.nextAct].prompt == Existing(s.db.activePrompt.value)
        && |t.live.preps[s.nextAct].targets| == 1
        && IsTarget(env, all, prompt.value, t.live.preps[s.nextAct].targets[0], EntryCommentary, Some(entry))
      else t == s
  {
    hide OrderedIds, Resolve, PreparedTarget, Preparable, IsTarget;
    var prompt := BatchPrompt(s.db, None);
    if prompt.Some? {
      PreparedTargetIs(env, LiveArchive(s.db.entries), prompt.value, EntryCommentary, Some(entry));
    }
  }

  /** A fresh item for a prepared target. */
  predicate FreshFor(db: Db, job: int, target: Prepared, rows: map<int, Item>, i: int) {
    && i in rows
    && rows[i] == Item(job, target.targetType, target.entryId, Pending, Some(target.formatVersion), Some(target.fingerprint),
                       CurrentResult(db, target.targetType, target.entryId), None, 0, None)
  }

  /** A prepared batch is spent by its submission. A granted one becomes the running job, with a worker
      scheduled for it and exactly one fresh item per target, in order; a refused one changes nothing in
      the database. */
  lemma SubmittedBatchRuns(env: Env, s: State, p: int)
    requires Reachable(env, s) && s.live.Up? && p in s.live.preps
    ensures var t, prep, job := Apply(env, s, Submit(p)), s.live.preps[p], s.db.jobs.next;
      && t.history == s.history && t.nextAct == s.nextAct
      && (t.db == s.db ==> t.live == s.live.(preps := s.live.preps - {p}))
      && (t.db != s.db ==>
            && t.live == s.live.(preps := s.live.preps - {p}, workers := s.live.workers[job := Worker(false, Scheduled, false)])
            && job in t.db.jobs.rows && t.db.jobs.rows[job].status == JobRunning
            && t.db.jobs.rows[job].snapshot == prep.ids && t.db.jobs.rows[job].snapshotCount == Some(|prep.ids|)
            && t.db.items.next == s.db.items.next + |prep.targets|
            && (forall n :: 0 <= n < |prep.targets| ==> FreshFor(s.db, job, prep.targets[n], t.db.items.rows, s.db.items.next + n))
            && (forall i :: i in t.db.items.rows && i !in s.db.items.rows ==> s.db.items.next <= i < t.db.items.next))
  {
    hide Inv, Reachable, Enqueue, AddItems, OrderedIds, NewItem, AllValid, Table.Valid;
    ReachableInv(env, s);
    EntriesTableValid(env, s);
    PrepTargets(env, s, p);
    var prep := s.live.preps[p];
    var (db, r) := Enqueue(s.db, prep.prompt, prep.ids, prep.targets);
    EnqueueAllOrNothing(s.db, prep.prompt, prep.ids, prep.targets);
    if r.Success? {
      EnqueuedItems(s.db, prep.prompt, prep.ids, prep.targets);
      AddItemsFacts(s.db, r.value, prep.targets);
      forall n | 0 <= n < |prep.targets| ensures FreshFor(s.db, r.value, prep.targets[n], db.items.rows, s.db.items.next + n) {
        assert AddedRow(s.db, db.items.rows, r.value, prep.targets[n], s.db.items.next + n);
        NewItemIs(s.db, r.value, prep.targets[n]);
      }
      assert s.db.jobs.next !in s.db.jobs.rows;
    }
  }

  /** A lease for background work, on behalf of an item. */
  predicate BackgroundLease(leases: map<Key, Lease>, key: Key, item: int) {
    key in leases && leases[key].kind == Background && leases[key].holder == ForItem(item)
  }

  /** The leases of a granted batch: one for every target, for background work, on behalf of the item
      inserted for it, and no other new one. */
  lemma BatchLeasesAre(leases: LeaseTable, targets: seq<Prepared>, firstItem: int)
    requires leases.Valid() && AllValid(targets) && ClaimTargets(leases, targets, firstItem).Claimed?
    ensures var later := ClaimTargets(leases, targets, firstItem).leases;
      && (forall n :: 0 <= n < |targets| ==> BackgroundLease(later.rows, targets[n].Key(), firstItem + n) && targets[n].Key() !in leases.rows)
      && (forall k :: k in leases.rows ==> k in later.rows && later.rows[k] == leases.rows[k])
      && (forall k :: k in later.rows && k !in leases.rows ==> exists n :: 0 <= n < |targets| && targets[n].Key() == k)
  {
    ClaimTargetsFacts(leases, targets, firstItem);
    var later := ClaimTargets(leases, targets, firstItem).leases;
    hide Prepared.Key, Prepared.Valid, ClaimTargets;
    forall n | 0 <= n < |targets| ensures BackgroundLease(later.rows, targets[n].Key(), firstItem + n) && targets[n].Key() !in leases.rows {
      assert ClaimedKey(leases, later, targets[n].Key(), firstItem + n);
      NewLeaseIsBackground(leases, targets, firstItem, targets[n].Key());
    }
    forall k | k in later.rows && k !in leases.rows ensures exists n :: 0 <= n < |targets| && targets[n].Key() == k {
      assert ClaimedRow(k, later.rows[k], targets, firstItem);
      assert targets[later.rows[k].holder.itemId - firstItem].Key() == k;
    }
  }

  lemma {:induction false} NewLeaseIsBackground(leases: LeaseTable, targets: seq<Prepared>, firstItem: int, k: Key)
    requires AllValid(targets) && ClaimTargets(leases, targets, firstItem).Claimed? && k !in leases.rows
    ensures var later := ClaimTargets(leases, targets, firstItem).leases.rows;
      k in later ==> later[k].kind == Background
  {
    hide Prepared.Key, Prepared.Valid;
    if targets != [] {
      NewLeaseIsBackground(leases, targets[..|targets| - 1], firstItem, k);
    }
  }

  lemma NewItemIs(db: Db, job: int, target: Prepared)
    ensures NewItem(db, job, target) ==
      Item(job, target.targetType, target.entryId, Pending, Some(target.formatVersion), Some(target.fingerprint),
           CurrentResult(db, target.targetType, target.entryId), None, 0, None)
  {
  }

  lemma PrepTargets(env: Env, s: State, p: int)
    requires Inv(env, s) && s.live.Up? && p in s.live.preps
    ensures AllValid(s.live.preps[p].targets) && s.db.items.Valid() && s.db.jobs.Valid() && s.db.jobs.next !in s.db.jobs.rows
  {
    hide EntriesValid, PromptsValid, ResultsValid, JobsOk, OneRunning, ItemsOk, BaselinesOk, TargetsDistinct, HistoryOrdered, HistoryOk, ChatOk;
    hide LeasesOk, TasksOk, WorkersOk, ActsOk, BusyOk;
    assert PrepOk(env, s.db.entries.rows, s.db.prompts.rows, s.live.preps[p]);
  }

  // ------------------------------------------------------------------ results

  /** A reflection that comes off replaces every earlier one of its entry, and no other; a report is
      added to the earlier ones. The other table stays as it is. */
  lemma CompletionReplaces(env: Env, s: State, i: int, text: string)
    requires Reachable(env, s) && s.live.Up? && i in s.db.items.rows && s.db.items.rows[i].status != Ok
    requires i in Apply(env, s, Settle(i, Some(text))).db.items.rows && Apply(env, s, Settle(i, Some(text))).db.items.rows[i].status == Ok
    ensures var after, item := Apply(env, s, Settle(i, Some(text))).db, s.db.items.rows[i];
      && item.jobId in s.db.jobs.rows
      && var id, row := ResultTable(s.db, item.targetType).next, ResultRow(item.entryId, s.db.jobs.rows[item.jobId].promptId, true, text);
         if item.targetType == EntryCommentary then
           && after.reports == s.db.reports && after.commentary.next == id + 1
           && (forall k :: k in after.commentary.rows <==> k == id || (k in s.db.commentary.rows && s.db.commentary.rows[k].entryId != item.entryId))
           && (forall k :: k in after.commentary.rows ==> after.commentary.rows[k] == if k == id then row else s.db.commentary.rows[k])
         else after.commentary == s.db.commentary && after.reports.next == id + 1 && after.reports.rows == s.db.reports.rows[id := row]
  {
    hide Inv, Reachable, StillMatches, Table.Valid;
    ReachableInv(env, s);
    EntriesTableValid(env, s);
    GeneratingItem(env, s, i);
    InFlightTarget(env, s, i);
    ReportTables(env, s);
    NextIsNew(s.db.commentary);
  }

  lemma NextIsNew<T>(table: Table<T>)
    requires table.Valid()
    ensures table.next !in table.rows
  {
  }

  // ------------------------------------------------------------------ crashes, restarts, retries

  /** A crash loses what the process remembered and nothing that was stored. After a restart the
      only things alive are workers, scheduled and marked as recovering. */
  lemma CrashAndRestart(env: Env, s: State)
    requires Reachable(env, s)
    ensures Apply(env, s, Crash) == s.(live := Down)
    ensures s.live.Down? ==>
      var t := Apply(env, s, Restart);
      && t.history == s.history && t.nextAct == s.nextAct
      && t.live.Up? && t.live.acts == map[] && t.live.preps == map[] && t.live.tasks == map[]
      && (forall j :: j in t.live.workers ==> t.live.workers[j] == Worker(true, Scheduled, false))
  {
    hide Recover, Reachable;
  }

  /** A granted retry schedules a worker that is not recovering; a refused one changes nothing. */
  lemma RetrySchedulesAWorker(env: Env, s: State, i: int, expectedJob: Option<int>)
    requires Reachable(env, s) && s.live.Up?
    ensures var t := Apply(env, s, RetryItem(i, expectedJob));
      match Retry(s.db, i, expectedJob).1
      case Success(job) => t == s.(db := Retry(s.db, i, expectedJob).0, live := s.live.(workers := s.live.workers[job := Worker(false, Scheduled, false)]))
      case Failure(_) => t == s
  {
    hide Inv, Reachable, Retry;
    ReachableInv(env, s);
    EntriesTableValid(env, s);
  }

  // ------------------------------------------------------------------ the worker's own checks

  /** The worker's setup, in whatever state it finds the database: it goes on exactly if the job has a
      whole snapshot of existing entries and its prompt is there; otherwise the job is cancelled, its
      unfinished items and their leases go, and its worker ends. */
  lemma SetupChecksTheJob(env: Env, s: State, job: int)
    requires s.live.Up? && s.db.entries.Valid() && job in s.live.workers && s.live.workers[job].phase == Scheduled && job in s.db.jobs.rows
    ensures var t, row := Apply(env, s, Load(job)), s.db.jobs.rows[job];
      if row.snapshotCount == Some(|row.snapshot|) && row.promptId in s.db.prompts.rows
         && forall n :: 0 <= n < |row.snapshot| ==> row.snapshot[n] in s.db.entries.rows
      then t == s.(live := s.live.(workers := s.live.workers[job := s.live.workers[job].(phase := Loaded)]))
      else
        && t.live.Up? && job !in t.live.workers && job in t.db.jobs.rows && t.db.jobs.rows[job] == row.(status := JobCancelled)
        && (forall i :: i in t.db.items.rows <==> i in s.db.items.rows && !(s.db.items.rows[i].jobId == job && Unfinished(s.db.items.rows[i])))
        && (forall i :: i in s.db.items.rows && s.db.items.rows[i].jobId == job && Unfinished(s.db.items.rows[i]) && ItemKey(s.db.items.rows[i]).Some? ==>
              ItemKey(s.db.items.rows[i]).value !in t.db.leases.rows)
  {
    hide Resolve, ItemKey;
    assert |Resolve(s.db.entries.rows, s.db.jobs.rows[job].snapshot)| == |s.db.jobs.rows[job].snapshot| <==>
      Known(s.db.entries.rows, s.db.jobs.rows[job].snapshot);
  }

  /** The item's request, rebuilt now, is the one it was admitted with. */
  predicate SameRequest(env: Env, db: Db, item: Item) {
    && item.jobId in db.jobs.rows && db.jobs.rows[item.jobId].promptId in db.prompts.rows
    && item.formatVersion.Some? && item.fingerprint.Some?
    && env.assemble(Resolve(db.entries.rows, db.jobs.rows[item.jobId].snapshot), db.prompts.rows[db.jobs.rows[item.jobId].promptId],
                    item.targetType, item.entryId) == Some((item.formatVersion.value, item.fingerprint.value))
  }

  lemma SameRequestMatches(env: Env, db: Db, item: Item)
    ensures StillMatches(env, db, item) <==> SameRequest(env, db, item)
  {
    hide Resolve;
    if item.jobId in db.jobs.rows && db.jobs.rows[item.jobId].promptId in db.prompts.rows {
      var job := db.jobs.rows[item.jobId];
      var got := env.assemble(Resolve(db.entries.rows, job.snapshot), db.prompts.rows[job.promptId], item.targetType, item.entryId);
      if got.Some? {
        var (version, mark) := got.value;
        assert got == Some((version, mark));
      }
    }
  }

  /** No request is sent that is not the one admitted, in whatever state: an item whose request has
      changed fails, with an error, and nothing else of the database changes; a recovered job with such
      an item is cancelled before any request is sent. */
  lemma ChangedRequestIsNeverSent(env: Env, s: State, i: int, text: Option<string>)
    requires s.live.Up? && s.db.entries.Valid() && i in s.live.tasks && s.live.tasks[i] == Generating && i in s.db.items.rows
    requires s.db.items.rows[i].jobId in s.live.workers && s.db.items.rows[i].jobId in s.db.jobs.rows
    ensures !SameRequest(env, s.db, s.db.items.rows[i]) || text.None? ==>
      var t, item := Apply(env, s, Settle(i, text)), s.db.items.rows[i];
      && t.db == s.db.(items := t.db.items) && t.db.items.next == s.db.items.next && t.history == s.history
      && t.db.items.rows == s.db.items.rows[i := item.(status := Failed, error := Some(""), attempts := item.attempts + 1)]
  {
    SameRequestMatches(env, s.db, s.db.items.rows[i]);
    hide SameRequest, StillMatches, CompleteItem;
  }

  lemma RecoveredJobIsChecked(env: Env, s: State, job: int, known: bool, admits: bool, i: int)
    requires s.live.Up? && s.db.entries.Valid() && job in s.live.workers && s.live.workers[job].phase == Loaded && s.live.workers[job].recovering
    requires job in s.db.jobs.rows && i in s.db.items.rows && s.db.items.rows[i].jobId == job && Unfinished(s.db.items.rows[i])
    requires !SameRequest(env, s.db, s.db.items.rows[i]) || !known || !admits
    ensures var t := Apply(env, s, LearnLimit(job, known, admits));
      && t.live.Up? && job !in t.live.workers && job in t.db.jobs.rows && t.db.jobs.rows[job].status == JobCancelled && i !in t.db.items.rows
  {
    SameRequestMatches(env, s.db, s.db.items.rows[i]);
    assert !(known && admits && AllMatch(env, s.db, job));
    hide SameRequest, StillMatches, AllMatch;
  }

  /** A failure is recorded with its reason, and counted; nothing else changes. */
  lemma FailureIsRecorded(db: Db, i: int, error: string)
    requires i in db.items.rows
    ensures var after, item := FailItem(db, i, error), db.items.rows[i];
      && after == db.(items := after.items) && after.items.next == db.items.next
      && after.items.rows == db.items.rows[i := item.(status := Failed, error := Some(error), attempts := item.attempts + 1)]
  {
  }
}
