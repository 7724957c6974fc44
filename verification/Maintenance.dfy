/** The maintenance flag drains the system: while it is set nothing new is admitted, and once the
    system is idle it stays idle, across crashes too, until it is unlocked. */
module Maintenance {
  import opened Tables
  import opened TargetKeys
  import opened Archive
  import opened Store
  import opened GenerationSafety
  import opened SafetyInvariant
  import opened WorkSteps
  import opened StartupRecovery
  import opened SafetyTheorems
  import opened Guarantees

  predicate Leased(leases: map<Key, Lease>, id: int) {
    exists k :: k in leases && leases[k].id == id
  }

  /** No lease row and no running job that was not there before, and the flag still set. */
  ghost predicate Drains(db: Db, later: Db) {
    && later.locked
    && (forall id :: Leased(later.leases.rows, id) ==> Leased(db.leases.rows, id))
    && (forall j :: j in later.jobs.rows && later.jobs.rows[j].status == JobRunning ==>
          j in db.jobs.rows && db.jobs.rows[j].status == JobRunning)
  }

  lemma FewerLeases(db: Db, later: Db)
    requires db.locked && later.locked && later.jobs == db.jobs
    requires forall k :: k in later.leases.rows ==> Leased(db.leases.rows, later.leases.rows[k].id)
    ensures Drains(db, later)
  {
    hide Leased;
    forall id | Leased(later.leases.rows, id) ensures Leased(db.leases.rows, id) {
      LeasedRow(later.leases.rows, id);
    }
  }

  lemma LeasedRow(leases: map<Key, Lease>, id: int)
    requires Leased(leases, id)
    ensures exists k :: k in leases && leases[k].id == id
  {
  }

  lemma SameGates(db: Db, later: Db)
    requires db.locked && later.locked && later.leases.rows == db.leases.rows
    requires forall j :: j in later.jobs.rows && later.jobs.rows[j].status == JobRunning ==>
      j in db.jobs.rows && db.jobs.rows[j].status == JobRunning
    ensures Drains(db, later)
  {
  }

  lemma RouteDrains(env: Env, s: State, a: Action)
    requires s.live.Up? && s.db.entries.Valid() && s.db.locked
    requires a.ApplyPrompt? || a.StartReport? || a.SaveReport? || a.StartTurn? || a.Ask? || a.Answer? || a.StartRequest?
          || a.PrepareOne? || a.PrepareAll? || a.Submit?
    ensures Drains(s.db, ApplyOnline(env, s, a).db)
  {
    hide OrderedIds, PreparedTarget, PreparedAll, Resolve, ThreadExists, Drains, ClaimTargets, AddItems;
    SameGates(s.db, ApplyOnline(env, s, a).db);
  }

  lemma ReleaseDrains(s: State, a: int)
    requires s.live.Up? && s.db.locked
    ensures Drains(s.db, DoRelease(s, a).db)
  {
    hide Drains;
    FewerLeases(s.db, DoRelease(s, a).db);
  }

  lemma HandOffDrains(s: State, a: int, title: string, text: string)
    requires s.live.Up? && s.db.locked
    ensures Drains(s.db, DoHandOff(s, a, title, text).db)
  {
    hide Drains;
    ReleaseDrains(s, a);
    FewerLeases(s.db, s.db);
    if a in s.live.acts && s.live.acts[a].kind.RequestScoped? {
      var (later, outcome) := Handoff(s.db, s.live.acts[a].leaseId, title, Message(User, a, text));
      if outcome.Success? {
        FewerLeases(s.db, later);
      }
    }
  }

  lemma RemoveDrains(s: State, id: int)
    requires s.db.locked
    ensures Drains(s.db, DeleteSession(s.db, id).0)
  {
    hide Drains;
    SameGates(s.db, DeleteSession(s.db, id).0);
  }

  lemma WorkerDrains(env: Env, s: State, a: Action)
    requires s.live.Up? && s.db.entries.Valid() && s.db.locked
    requires a.Load? || a.LearnLimit? || a.Claim? || a.EndClaims? || a.Begin? || a.Settle? || a.Free? || a.Finish? || a.RetryItem?
    ensures Drains(s.db, ApplyOnline(env, s, a).db)
  {
    hide SetupOk, AllMatch, AnyPending, BusyTasks, Drains, Refuse, DoSettle, DoFree, DoFinish, DoRetry, Table.Valid;
    hide DoStartReport, DoSaveReport, DoStartTurn, DoAsk, DoAnswer, DoStartRequest, DoHandOff, DoRelease, DoPrepareOne, DoPrepareAll;
    hide DoSubmit, DeleteSession, ActivatePrompt, ApplyOffline;
    SameGates(s.db, s.db);
    match a {
      case Load(job) => RefuseDrains(s, job);
      case LearnLimit(job, _, _) => RefuseDrains(s, job);
      case Claim(i) => SameGates(s.db, DoClaim(s, i).db);
      case Settle(i, text) => SettleDrains(env, s, i, text);
      case Free(i) => FreeDrains(s, i);
      case Finish(job) => FinishDrains(s, job);
      case RetryItem(i, expected) => RetryDrains(s, i, expected);
      case _ =>
    }
  }

  lemma SettleDrains(env: Env, s: State, i: int, text: Option<string>)
    requires s.live.Up? && s.db.locked
    ensures Drains(s.db, DoSettle(env, s, i, text).db)
  {
    hide Drains, StillMatches, ResultTable, PruneOthers;
    SameGates(s.db, DoSettle(env, s, i, text).db);
  }

  lemma FinishDrains(s: State, job: int)
    requires s.live.Up? && s.db.locked
    ensures Drains(s.db, DoFinish(s, job).db)
  {
    hide Drains, HasUnfinished, AllFinished, TasksOf;
    SameGates(s.db, DoFinish(s, job).db);
  }

  /** A locked database refuses a retry. */
  lemma RetryDrains(s: State, i: int, expected: Option<int>)
    requires s.live.Up? && s.db.locked
    ensures Drains(s.db, DoRetry(s, i, expected).db)
  {
    hide Drains, NewerItem, Current;
    SameGates(s.db, s.db);
  }

  lemma RefuseDrains(s: State, job: int)
    requires s.live.Up? && s.db.locked
    ensures Drains(s.db, Refuse(s, job).db)
  {
    hide UnfinishedKeys, DropUnfinished;
  }

  lemma FreeDrains(s: State, i: int)
    requires s.live.Up? && s.db.locked
    ensures Drains(s.db, DoFree(s, i).db)
  {
    hide Drains, ItemKey;
    FewerLeases(s.db, DoFree(s, i).db);
  }

  lemma OfflineDrains(s: State, a: Action)
    requires s.db.locked && !a.Restart? && !a.Unlock?
    ensures Drains(s.db, ApplyOffline(s, a).db)
  {
    hide Drains;
    SameGates(s.db, ApplyOffline(s, a).db);
  }

  /** While the flag is set, no step but startup recovery (and the unlock) admits a lease or starts
      a job. */
  lemma LockedStepDrains(env: Env, s: State, a: Action)
    requires Reachable(env, s) && s.db.locked && !a.Restart? && !a.Unlock?
    ensures Drains(s.db, Apply(env, s, a).db)
  {
    hide Inv, Reachable, Drains, ApplyOffline, Table.Valid;
    hide DoRelease, DoHandOff, DeleteSession;
    ReachableInv(env, s);
    EntriesTableValid(env, s);
    if s.live.Up? {
      DrainsOnline(env, s, a);
    } else {
      OfflineDrains(s, a);
    }
  }

  lemma DrainsOnline(env: Env, s: State, a: Action)
    requires Inv(env, s) && s.live.Up? && s.db.entries.Valid() && s.db.locked && !a.Restart? && !a.Unlock?
    ensures Drains(s.db, ApplyOnline(env, s, a).db)
  {
    hide Inv, Drains, ApplyOffline, Table.Valid, DeleteSession, ActivatePrompt;
    hide DoStartReport, DoSaveReport, DoStartTurn, DoAsk, DoAnswer, DoStartRequest, DoHandOff, DoRelease, DoPrepareOne, DoPrepareAll;
    hide DoSubmit, DoLoad, DoLearnLimit, DoClaim, DoEndClaims, DoBegin, DoSettle, DoFree, DoFinish, DoRetry;
    match a {
      case Release(act) => ReleaseDrains(s, act);
      case HandOff(act, title, text) => HandOffDrains(s, act, title, text);
      case RemoveSession(id) => RemoveDrains(s, id);
      case AddEntry(_, _, _) => OfflineDrains(s, a);
      case Lock => OfflineDrains(s, a);
      case Crash => OfflineDrains(s, a);
      case _ =>
        if a.ApplyPrompt? || a.StartReport? || a.SaveReport? || a.StartTurn? || a.Ask? || a.Answer? || a.StartRequest?
           || a.PrepareOne? || a.PrepareAll? || a.Submit? {
          RouteDrains(env, s, a);
        } else {
          WorkerDrains(env, s, a);
        }
    }
  }

  lemma DrainedIsIdle(db: Db, later: Db)
    requires Idle(db) && Drains(db, later)
    ensures Idle(later)
  {
    forall k ensures k !in later.leases.rows {
      assert k in later.leases.rows ==> Leased(later.leases.rows, later.leases.rows[k].id);
    }
  }

  /** Startup on an idle database recovers nothing. */
  lemma RestartIdle(env: Env, s: State)
    requires Inv(env, s) && Idle(s.db)
    ensures Idle(DoRestart(s).db) && DoRestart(s).db.locked == s.db.locked
  {
    hide Attended, Recover, RecoveredExactly, ItemsOk, BaselinesOk, TargetsDistinct, HistoryOk, ChatOk, HistoryOrdered;
    RecoveryCompleteAndExact(env, s.db, s.nextAct, s.history);
    NothingUnfinished(env, s.db.entries.rows, s.db.prompts.rows, s.db.jobs.rows, s.db.items.rows);
    RecoveredIdle(s.db, Recover(s.db));
  }

  lemma RecoveredIdle(db: Db, r: Recovery)
    requires RecoveredExactly(db, r) && Idle(db)
    requires forall i :: i in db.items.rows ==> !Unfinished(db.items.rows[i])
    ensures Idle(r.db) && r.db.locked == db.locked
  {
    hide ExactlyTheirLeases;
    LeasesNeedItems(r.db.leases.rows, r.db.items.rows);
    forall i | i in r.db.items.rows ensures !Unfinished(r.db.items.rows[i]) {
      assert i in db.items.rows && r.db.items.rows[i] == db.items.rows[i];
    }
  }

  lemma LeasesNeedItems(leases: map<Key, Lease>, items: map<int, Item>)
    requires ExactlyTheirLeases(leases, items)
    ensures leases != map[] ==> exists i :: i in items && Unfinished(items[i])
  {
    if leases != map[] {
      var k :| k in leases;
      assert Unfinished(items[leases[k].holder.itemId]);
    }
  }

  /** Locked and idle is stable: over any run without an unlock, with crashes and restarts. */
  lemma {:induction false} LockedIdleIsStable(env: Env, s: State, actions: seq<Action>)
    requires Reachable(env, s) && s.db.locked && Idle(s.db)
    requires forall n :: 0 <= n < |actions| ==> !actions[n].Unlock?
    ensures Run(env, s, actions).db.locked && Idle(Run(env, s, actions).db)
    ensures Reachable(env, Run(env, s, actions))
  {
    hide Inv, Reachable, Apply, Idle, Drains;
    if actions != [] {
      var n := |actions| - 1;
      LockedIdleIsStable(env, s, actions[..n]);
      var before := Run(env, s, actions[..n]);
      ReachableStep(env, before, actions[n]);
      StaysIdle(env, before, actions[n]);
    }
  }

  lemma StaysIdle(env: Env, s: State, a: Action)
    requires Reachable(env, s) && s.db.locked && Idle(s.db) && !a.Unlock?
    ensures Apply(env, s, a).db.locked && Idle(Apply(env, s, a).db)
  {
    hide Inv, Reachable, Idle, Table.Valid, DoRestart;
    if a.Restart? {
      ReachableInv(env, s);
      RestartIdle(env, s);
    } else {
      LockedStepDrains(env, s, a);
      StillLocked(s.db, Apply(env, s, a).db);
      DrainedIsIdle(s.db, Apply(env, s, a).db);
    }
  }

  lemma StillLocked(db: Db, later: Db)
    requires Drains(db, later)
    ensures later.locked
  {
  }

  /** While a process is up, the database is idle exactly if no request holds a lease and no worker is
      at work. */
  lemma IdleExactlyWhenUnoccupied(env: Env, s: State)
    requires Reachable(env, s) && s.live.Up?
    ensures Idle(s.db) <==> s.live.acts == map[] && s.live.workers == map[]
  {
    hide Reachable;
    ReachableInv(env, s);
    hide Stored, ActsOk, PrepsOk, BusyOk, ItemsHold;
    RequestsNeedLeases(s.db.leases.rows, s.live.acts);
    WorkersNeedJobs(s.db.jobs, s.live.workers);
    ItemsOfRunningJobs(env, s);
    LeasesNeedHolders(s);
  }

  lemma RequestsNeedLeases(leases: map<Key, Lease>, acts: map<int, Activity>)
    requires ActsHold(leases, acts)
    ensures acts != map[] ==> leases != map[]
  {
    if acts != map[] {
      var a := AnyKey(acts);
      var k := acts[a].key;
      assert k in leases;
    }
  }

  lemma WorkersNeedJobs(jobs: Table<Job>, workers: map<int, Worker>)
    requires WorkersOk(jobs.rows, workers)
    ensures SomeJobRunning(jobs) <==> workers != map[]
  {
    if workers != map[] {
      var j := AnyKey(workers);
      assert j in jobs.rows;
    }
  }

  lemma LeasesNeedHolders(s: State)
    requires s.live.Up?
    requires HoldersOk(s.db.leases.rows, s.db.items.rows, s.live.acts, s.live.tasks)
    requires TasksOk(s.db.items.rows, s.live.workers, s.live.tasks) && WorkersOk(s.db.jobs.rows, s.live.workers)
    requires forall i :: i in s.db.items.rows && Unfinished(s.db.items.rows[i]) ==>
      s.db.items.rows[i].jobId in s.db.jobs.rows && s.db.jobs.rows[s.db.items.rows[i].jobId].status == JobRunning
    ensures s.db.leases.rows != map[] ==> s.live.acts != map[] || s.live.workers != map[]
  {
    hide ItemKey, Unfinished;
    if s.db.leases.rows != map[] {
      var k :| k in s.db.leases.rows;
      assert HolderOk(k, s.db.leases.rows[k], s.db.items.rows, s.live.acts, s.live.tasks);
      match s.db.leases.rows[k].holder
      case ForActivity(a) => assert a in s.live.acts;
      case ForItem(i) => assert s.db.items.rows[i].jobId in s.live.workers;
    }
  }

  lemma ItemsOfRunningJobs(env: Env, s: State)
    requires Inv(env, s)
    ensures forall i :: i in s.db.items.rows && Unfinished(s.db.items.rows[i]) ==>
      s.db.items.rows[i].jobId in s.db.jobs.rows && s.db.jobs.rows[s.db.items.rows[i].jobId].status == JobRunning
  {
    hide EntriesValid, PromptsValid, ResultsValid, JobsOk, OneRunning, BaselinesOk, TargetsDistinct, HistoryOrdered, HistoryOk, ChatOk, Attended, ItemGood;
  }

  /** Unlocking succeeds exactly when no request holds a lease and no worker is at work, and changes
      nothing but the flag. */
  lemma UnlockExactlyWhenIdle(env: Env, s: State)
    requires Reachable(env, s) && s.live.Up?
    ensures UnlockIfIdle(s.db).1.Success? <==> s.live.acts == map[] && s.live.workers == map[]
    ensures Apply(env, s, Unlock).db == s.db.(locked := s.db.locked && !(s.live.acts == map[] && s.live.workers == map[]))
  {
    hide Reachable, Idle, Table.Valid;
    IdleExactlyWhenUnoccupied(env, s);
  }
}
