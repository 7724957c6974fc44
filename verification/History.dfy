/** What no step of the protocol ever takes back: entries, prompts, job snapshots, the identity of a
    job item, a finished item. */
module History {
  import opened Tables
  import opened TargetKeys
  import opened Archive
  import opened Store
  import opened GenerationSafety
  import opened SafetyInvariant
  import opened SafetySteps
  import opened WorkSteps
  import opened StartupRecovery
  import opened SafetyTheorems

  ghost predicate JobsKept(jobs: map<int, Job>, later: map<int, Job>) {
    forall j :: j in jobs ==>
      && j in later && later[j] == jobs[j].(status := later[j].status)
      && (jobs[j].status == JobCancelled ==> later[j].status == JobCancelled)
  }

  ghost predicate ItemsKept(items: Table<Item>, later: Table<Item>) {
    && items.next <= later.next
    && (forall i :: i in items.rows && i in later.rows ==> SameWork(items.rows[i], later.rows[i]))
    && (forall i :: i in items.rows && items.rows[i].status == Ok ==> i in later.rows && later.rows[i] == items.rows[i])
    && (forall i :: i in later.rows && i !in items.rows ==> i >= items.next)
  }

  ghost predicate Grows(db: Db, later: Db) {
    && Extends(db.entries.rows, later.entries.rows)
    && Extends(db.prompts.rows, later.prompts.rows)
    && JobsKept(db.jobs.rows, later.jobs.rows)
    && ItemsKept(db.items, later.items)
  }

  /** A step inserts at most one result row: for the item it settles, or for the report it saves. */
  predicate OneMore(a: Action, history: seq<Produced>, later: seq<Produced>) {
    || later == history
    || (|later| == |history| + 1 && later == history + [later[|history|]] && Author(a, later[|history|].origin))
  }

  predicate Author(a: Action, origin: Holder) {
    match origin
    case ForItem(i) => a.Settle? && a.item == i
    case ForActivity(x) => a.SaveReport? && a.act == x
  }

  lemma GrowsTransitive(a: Db, b: Db, c: Db)
    requires a.items.Valid() && Grows(a, b) && Grows(b, c)
    ensures Grows(a, c)
  {
    hide SameWork;
    forall i | i in a.items.rows && i in c.items.rows ensures SameWork(a.items.rows[i], c.items.rows[i]) {
      assert i in b.items.rows;
      SameWorkTransitive(a.items.rows[i], b.items.rows[i], c.items.rows[i]);
    }
  }

  lemma SameWorkTransitive(a: Item, b: Item, c: Item)
    requires SameWork(a, b) && SameWork(b, c)
    ensures SameWork(a, c)
  {
  }

  // ------------------------------------------------------------------ one step

  /** Entries, prompts, jobs and items stay as they are. */
  predicate WorkUntouched(db: Db, later: Db) {
    later.entries == db.entries && later.prompts == db.prompts && later.jobs == db.jobs && later.items == db.items
  }

  lemma UntouchedGrows(db: Db, later: Db)
    requires WorkUntouched(db, later)
    ensures Grows(db, later)
  {
  }

  /** One item moves on; it was not finished before. */
  lemma ItemMoves(items: Table<Item>, i: int, later: Item)
    requires i in items.rows && items.rows[i].status != Ok && SameWork(items.rows[i], later)
    ensures ItemsKept(items, items.Set(i, later))
  {
  }

  lemma RouteGrows(env: Env, s: State, a: Action)
    requires s.live.Up? && s.db.entries.Valid()
    requires a.StartReport? || a.SaveReport? || a.StartTurn? || a.Ask? || a.Answer? || a.StartRequest? || a.HandOff? || a.Release?
          || a.RemoveSession? || a.PrepareOne? || a.PrepareAll?
    ensures WorkUntouched(s.db, ApplyOnline(env, s, a).db) && OneMore(a, s.history, ApplyOnline(env, s, a).history)
  {
    hide OrderedIds, PreparedTarget, PreparedAll, Resolve, ThreadExists, Table.Valid, DoHandOff, DoPrepareAll, DoStartTurn;
    hide DoSubmit, DoSettle, DoFinish, DoRetry, DoLoad, DoLearnLimit, DoClaim, DoEndClaims, DoBegin, DoFree, ApplyOffline;
    HardRoutesKeep(env, s, a);
  }

  /** The three routes with most branches. */
  lemma HardRoutesKeep(env: Env, s: State, a: Action)
    requires s.live.Up? && s.db.entries.Valid()
    ensures a.HandOff? ==> WorkUntouched(s.db, DoHandOff(s, a.act, a.title, a.text).db) && DoHandOff(s, a.act, a.title, a.text).history == s.history
    ensures a.StartTurn? ==> WorkUntouched(s.db, DoStartTurn(s, a.thread).db) && DoStartTurn(s, a.thread).history == s.history
    ensures a.PrepareAll? ==> WorkUntouched(s.db, DoPrepareAll(env, s, a.draft).db) && DoPrepareAll(env, s, a.draft).history == s.history
  {
    hide OrderedIds, PreparedAll, Resolve, ThreadExists, Table.Valid, LeaseTable.HasId, LeaseTable.Rekey;
  }

  lemma SubmitGrows(env: Env, s: State, p: int)
    requires Inv(env, s) && s.live.Up? && s.db.entries.Valid()
    ensures Grows(s.db, DoSubmit(s, p).db) && DoSubmit(s, p).history == s.history
  {
    hide EntriesValid, ResultsValid, JobsOk, OneRunning, ItemsOk, BaselinesOk, TargetsDistinct, HistoryOrdered, HistoryOk, ChatOk, Attended;
    hide OrderedIds, ClaimedFor, NewItem, Enqueue, Table.Valid, AddedItems;
    if p in s.live.preps && AllValid(s.live.preps[p].targets) {
      var prep := s.live.preps[p];
      EnqueueRefused(s.db, prep.prompt, prep.ids, prep.targets);
      if Enqueue(s.db, prep.prompt, prep.ids, prep.targets).1.Success? {
        var promptId := EnqueueFacts(s.db, prep.prompt, prep.ids, prep.targets);
        var (later, outcome) := Enqueue(s.db, prep.prompt, prep.ids, prep.targets);
        EnqueuedGrows(s.db, later, outcome.value, promptId, prep.targets);
      }
    }
  }

  lemma EnqueuedGrows(db: Db, later: Db, jobId: int, promptId: int, targets: seq<Prepared>)
    requires AllValid(targets) && db.entries.Valid() && db.jobs.Valid() && db.items.Valid()
    requires Enqueued(db, later, jobId, promptId, targets)
    ensures Grows(db, later)
  {
    hide OrderedIds, ClaimedFor, NewItem, AddedRow;
  }

  lemma RefuseGrows(s: State, job: int)
    requires s.live.Up?
    ensures Grows(s.db, Refuse(s, job).db) && Refuse(s, job).history == s.history
  {
  }

  lemma WorkerGrows(env: Env, s: State, a: Action)
    requires s.live.Up? && s.db.entries.Valid()
    requires a.Load? || a.LearnLimit? || a.Claim? || a.EndClaims? || a.Begin? || a.Free?
    ensures Grows(s.db, ApplyOnline(env, s, a).db) && ApplyOnline(env, s, a).history == s.history
  {
    hide Refuse, SetupOk, AllMatch, AnyPending, BusyTasks, Grows, DoClaim, DoFree, ReleaseTarget, Table.Valid;
    hide DoStartReport, DoSaveReport, DoStartTurn, DoAsk, DoAnswer, DoStartRequest, DoHandOff, DoRelease, DoPrepareOne, DoPrepareAll;
    hide DoSubmit, DoSettle, DoFinish, DoRetry, DeleteSession, ActivatePrompt, ApplyOffline;
    UntouchedGrows(s.db, s.db);
    match a {
      case Load(job) => RefuseGrows(s, job);
      case LearnLimit(job, known, admits) => RefuseGrows(s, job);
      case Claim(i) => ClaimGrows(s, i);
      case Free(i) => FreeGrows(s, i);
      case _ =>
    }
  }

  lemma FreeGrows(s: State, i: int)
    requires s.live.Up?
    ensures Grows(s.db, DoFree(s, i).db) && DoFree(s, i).history == s.history
  {
    hide Grows, ItemKey;
    UntouchedGrows(s.db, DoFree(s, i).db);
  }

  lemma ClaimGrows(s: State, i: int)
    requires s.live.Up?
    ensures Grows(s.db, DoClaim(s, i).db) && DoClaim(s, i).history == s.history
  {
    if DoClaim(s, i) != s {
      ItemMoves(s.db.items, i, s.db.items.rows[i].(status := Running));
    }
  }

  lemma SettleGrows(env: Env, s: State, i: int, text: Option<string>)
    requires Inv(env, s) && s.live.Up?
    ensures Grows(s.db, DoSettle(env, s, i, text).db) && OneMore(Settle(i, text), s.history, DoSettle(env, s, i, text).history)
  {
    hide Inv, StillMatches;
    if i in s.live.tasks && s.live.tasks[i] == Generating {
      GeneratingItem(env, s, i);
      ItemMoves(s.db.items, i, DoSettle(env, s, i, text).db.items.rows[i]);
    }
  }

  lemma FinishGrows(env: Env, s: State, job: int)
    requires Inv(env, s) && s.live.Up?
    ensures Grows(s.db, DoFinish(s, job).db) && DoFinish(s, job).history == s.history
  {
    hide EntriesValid, PromptsValid, ResultsValid, JobsOk, OneRunning, ItemsOk, BaselinesOk, TargetsDistinct, HistoryOrdered, HistoryOk, ChatOk;
    hide LeasesOk, TasksOk, ActsOk, PrepsOk, BusyOk, AllFinished, HasUnfinished;
  }

  lemma RetryGrows(env: Env, s: State, i: int, expectedJob: Option<int>)
    requires Inv(env, s) && s.live.Up?
    ensures Grows(s.db, DoRetry(s, i, expectedJob).db) && DoRetry(s, i, expectedJob).history == s.history
  {
    hide Inv, Retry, Current, Grows, SameWork;
    RetryFacts(s.db, i, expectedJob);
    UntouchedGrows(s.db, s.db);
    if Retry(s.db, i, expectedJob).1.Success? {
      RetriedGrows(s.db, Retry(s.db, i, expectedJob).0, i);
    }
  }

  lemma RetriedGrows(db: Db, later: Db, i: int)
    requires Retried(db, later, i)
    ensures Grows(db, later)
  {
    ItemMoves(db.items, i, later.items.rows[i]);
  }

  lemma RestartGrows(env: Env, s: State)
    requires Inv(env, s)
    ensures Grows(s.db, DoRestart(s).db) && DoRestart(s).history == s.history
  {
    hide Stored, Attended, Recover, RecoveredExactly;
    RecoveryCompleteAndExact(env, s.db, s.nextAct, s.history);
    RecoveredGrows(s.db, Recover(s.db));
  }

  lemma RecoveredGrows(db: Db, r: Recovery)
    requires RecoveredExactly(db, r)
    ensures Grows(db, r.db)
  {
    hide ExactlyTheirLeases;
  }

  lemma OfflineGrows(env: Env, s: State, a: Action)
    requires Inv(env, s)
    ensures Grows(s.db, ApplyOffline(s, a).db) && ApplyOffline(s, a).history == s.history
  {
    hide Stored, Attended, Idle, DoRestart, Grows;
    UntouchedGrows(s.db, s.db);
    match a {
      case AddEntry(date, title, text) => AddEntryGrows(env, s, date, title, text);
      case Restart => RestartGrows(env, s);
      case _ => UntouchedGrows(s.db, ApplyOffline(s, a).db);
    }
  }

  lemma AddEntryGrows(env: Env, s: State, date: string, title: string, text: string)
    requires Inv(env, s)
    ensures Grows(s.db, WriteEntry(s.db, date, title, text))
  {
    hide PromptsValid, ResultsValid, JobsOk, OneRunning, ItemsOk, BaselinesOk, TargetsDistinct, HistoryOrdered, HistoryOk, ChatOk, Attended;
    InsertExtends(s.db.entries, Entry(s.db.entries.next, date, title, text));
  }

  lemma ApplyPromptGrows(env: Env, s: State, body: string, model: string)
    requires Inv(env, s)
    ensures Grows(s.db, ActivatePrompt(s.db, body, model))
  {
    hide EntriesValid, ResultsValid, JobsOk, OneRunning, ItemsOk, BaselinesOk, TargetsDistinct, HistoryOrdered, HistoryOk, ChatOk, Attended;
    InsertExtends(s.db.prompts, Prompt(body, model));
  }

  /** No step takes back an entry, a prompt, a job's prompt or snapshot, the identity of an item or
      a finished item, and none adds more than one result row. */
  lemma StepGrows(env: Env, s: State, a: Action)
    requires Inv(env, s)
    ensures Grows(s.db, Apply(env, s, a).db) && OneMore(a, s.history, Apply(env, s, a).history)
  {
    hide Inv, ApplyOffline, Table.Valid, Grows, WorkUntouched;
    hide DoStartReport, DoSaveReport, DoStartTurn, DoAsk, DoAnswer, DoStartRequest, DoHandOff, DoRelease, DoPrepareOne, DoPrepareAll;
    hide DoSubmit, DoLoad, DoLearnLimit, DoClaim, DoEndClaims, DoBegin, DoSettle, DoFree, DoFinish, DoRetry;
    if s.live.Up? && s.db.entries.Valid() {
      match a {
        case ApplyPrompt(body, model) => ApplyPromptGrows(env, s, body, model);
        case Submit(prep) => SubmitGrows(env, s, prep);
        case Load(_) => WorkerGrows(env, s, a);
        case LearnLimit(_, _, _) => WorkerGrows(env, s, a);
        case Claim(_) => WorkerGrows(env, s, a);
        case EndClaims(_) => WorkerGrows(env, s, a);
        case Begin(_) => WorkerGrows(env, s, a);
        case Free(_) => WorkerGrows(env, s, a);
        case Settle(item, text) => SettleGrows(env, s, item, text);
        case Finish(job) => FinishGrows(env, s, job);
        case RetryItem(item, expectedJob) => RetryGrows(env, s, item, expectedJob);
        case AddEntry(_, _, _) => OfflineGrows(env, s, a);
        case Lock => OfflineGrows(env, s, a);
        case Unlock => OfflineGrows(env, s, a);
        case Crash => OfflineGrows(env, s, a);
        case Restart => OfflineGrows(env, s, a);
        case _ =>
          RouteGrows(env, s, a);
          UntouchedGrows(s.db, ApplyOnline(env, s, a).db);
      }
    } else {
      OfflineGrows(env, s, a);
    }
  }

  lemma ItemsTableValid(env: Env, s: State)
    requires Inv(env, s)
    ensures s.db.items.Valid()
  {
    hide Attended;
  }

  /** The same over any continuation of a run. */
  lemma {:induction false} RunGrows(env: Env, s: State, actions: seq<Action>)
    requires Inv(env, s)
    ensures Inv(env, Run(env, s, actions)) && Grows(s.db, Run(env, s, actions).db)
  {
    hide Inv, Apply, Grows, WorkUntouched, Table.Valid;
    if actions == [] {
      Itself(s.db);
    } else {
      var n := |actions| - 1;
      var before := Run(env, s, actions[..n]);
      RunGrows(env, s, actions[..n]);
      StepGrows(env, before, actions[n]);
      ApplyInv(env, before, actions[n]);
      ItemsTableValid(env, s);
      GrowsTransitive(s.db, before.db, Apply(env, before, actions[n]).db);
    }
  }

  lemma Itself(db: Db)
    ensures Grows(db, db)
  {
  }
}
