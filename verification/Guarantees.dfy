/** The promises of generation safety, for every reachable state and every step out of one. */
module Guarantees {
  import opened Tables
  import opened TargetKeys
  import opened Archive
  import opened Store
  import opened GenerationSafety
  import opened SafetyInvariant
  import opened SafetySteps
  import opened WorkSteps
  import opened StartupRecovery
  import opened SafetyTheorems
  import opened History

  /** Some run from some startable database ends in s. */
  ghost predicate Reachable(env: Env, s: State) {
    exists s0, actions :: Initial(s0) && s == Run(env, s0, actions)
  }

  lemma ReachableInv(env: Env, s: State)
    requires Reachable(env, s)
    ensures Inv(env, s)
  {
    hide Inv, Initial, Run;
    var s0, actions :| Initial(s0) && s == Run(env, s0, actions);
    RunInv(env, s0, actions);
  }

  lemma ReachableStep(env: Env, s: State, a: Action)
    requires Reachable(env, s)
    ensures Reachable(env, Apply(env, s, a))
  {
    hide Initial, Apply;
    var s0, actions :| Initial(s0) && s == Run(env, s0, actions);
    assert (actions + [a])[..|actions|] == actions;
    assert Run(env, s0, actions + [a]) == Apply(env, s, a);
  }

  // ------------------------------------------------------------------ no lost update

  /** While a process is up, every unfinished item has its target's lease held on its own behalf,
      and its target's current result is still the baseline recorded at admission. */
  lemma NoLostUpdate(env: Env, s: State, i: int)
    requires Reachable(env, s) && s.live.Up? && i in s.db.items.rows && Unfinished(s.db.items.rows[i])
    ensures HoldsLease(s.db.leases.rows, s.db.items.rows, i)
    ensures InFlight(s.db.jobs.rows, s.db.items.rows, i)
    ensures s.db.items.rows[i].baseline == CurrentResult(s.db, s.db.items.rows[i].targetType, s.db.items.rows[i].entryId)
  {
    hide EntriesValid, PromptsValid, ResultsValid, JobsOk, OneRunning, TargetsDistinct, HistoryOrdered, HistoryOk, ChatOk;
    hide TasksOk, ActsOk, PrepsOk, BusyOk, ItemGood, Current, ItemKey, Reachable, LeaseTable.Valid;
    ReachableInv(env, s);
    var j := s.db.items.rows[i].jobId;
    assert j in s.live.workers;
  }

  lemma BaselineOf(env: Env, s: State, i: int)
    requires Inv(env, s) && InFlight(s.db.jobs.rows, s.db.items.rows, i)
    ensures s.db.items.rows[i].baseline == CurrentResult(s.db, s.db.items.rows[i].targetType, s.db.items.rows[i].entryId)
    ensures ResultsValid(s.db.commentary, s.db.reports)
  {
    hide EntriesValid, PromptsValid, ResultsValid, JobsOk, OneRunning, TargetsDistinct, HistoryOrdered, HistoryOk, ChatOk, Attended;
    hide ItemsOk, Current, LeaseTable.Valid;
  }

  /** A completion supersedes exactly the recorded baseline: the target's current result goes from
      the baseline to the new row, and nobody else's current result moves. */
  lemma CompletionSupersedesBaseline(env: Env, s: State, i: int, text: Option<string>, targetType: TargetType, entryId: Option<int>)
    requires Reachable(env, s) && s.live.Up? && i in s.db.items.rows && s.db.items.rows[i].status != Ok
    requires i in Apply(env, s, Settle(i, text)).db.items.rows && Apply(env, s, Settle(i, text)).db.items.rows[i].status == Ok
    ensures var after, item := Apply(env, s, Settle(i, text)).db, s.db.items.rows[i];
      && text.Some? && item.jobId in s.db.jobs.rows
      && CurrentResult(s.db, item.targetType, item.entryId) == item.baseline
      && CurrentResult(after, item.targetType, item.entryId) == after.items.rows[i].resultId == Some(ResultTable(s.db, item.targetType).next)
      && ResultTable(s.db, item.targetType).next in ResultTable(after, item.targetType).rows
      && ResultTable(after, item.targetType).rows[ResultTable(s.db, item.targetType).next]
           == ResultRow(item.entryId, s.db.jobs.rows[item.jobId].promptId, true, text.value)
      && ((targetType, entryId) != (item.targetType, item.entryId) ==>
            CurrentResult(after, targetType, entryId) == CurrentResult(s.db, targetType, entryId))
  {
    hide Inv, Reachable, StillMatches, CompletedTable, Current, CompleteItem, Table.Valid;
    ReachableInv(env, s);
    EntriesTableValid(env, s);
    GeneratingItem(env, s, i);
    BaselineOf(env, s, i);
    var item := s.db.items.rows[i];
    InFlightTarget(env, s, i);
    var row := ResultRow(item.entryId, s.db.jobs.rows[item.jobId].promptId, true, text.value);
    CompletionShape(s.db, i, item.targetType, row);
    CompletionResults(s.db, item, item.targetType, row, entryId);
    CompletedRow(s.db, item.targetType, row);
    OtherTable(s.db, targetType, item.targetType, row);
  }

  lemma CompletedRow(db: Db, targetType: TargetType, row: ResultRow)
    ensures ResultTable(db, targetType).next in CompletedTable(db, targetType, targetType, row).rows
    ensures CompletedTable(db, targetType, targetType, row).rows[ResultTable(db, targetType).next] == row
  {
  }

  lemma EntriesTableValid(env: Env, s: State)
    requires Inv(env, s)
    ensures s.db.entries.Valid()
  {
    hide Attended;
  }

  lemma InFlightTarget(env: Env, s: State, i: int)
    requires Inv(env, s) && InFlight(s.db.jobs.rows, s.db.items.rows, i)
    ensures s.db.items.rows[i].targetType == AggregateReport ==> s.db.items.rows[i].entryId == None
    ensures s.db.items.rows[i].entryId.Some? ==> s.db.items.rows[i].entryId.value in s.db.entries.rows
    ensures s.db.items.rows[i].targetType == EntryCommentary ==> s.db.items.rows[i].entryId.Some?
    ensures s.db.jobs.rows[s.db.items.rows[i].jobId].promptId in s.db.prompts.rows
    ensures StillMatches(env, s.db, s.db.items.rows[i])
  {
    hide EntriesValid, PromptsValid, ResultsValid, JobsOk, OneRunning, BaselinesOk, TargetsDistinct, HistoryOrdered, HistoryOk, ChatOk, Attended;
    hide Matches;
  }

  /** Freeing a settled item's target takes away exactly the lease row inserted for that item. */
  lemma FreeReleasesOwnLease(env: Env, s: State, i: int)
    requires Reachable(env, s) && s.live.Up? && i in s.live.tasks && s.live.tasks[i] == Settled
    ensures HoldsLease(s.db.leases.rows, s.db.items.rows, i)
    ensures Apply(env, s, Free(i)).db.leases.rows == s.db.leases.rows - {ItemKey(s.db.items.rows[i]).value}
    ensures forall k :: k in s.db.leases.rows ==>
      (k in Apply(env, s, Free(i)).db.leases.rows <==> s.db.leases.rows[k].holder != ForItem(i))
  {
    hide EntriesValid, PromptsValid, ResultsValid, JobsOk, OneRunning, ItemsOk, BaselinesOk, TargetsDistinct, HistoryOrdered, HistoryOk, ChatOk;
    hide TasksOk, ActsOk, PrepsOk, BusyOk, WorkersOk, Reachable, LeaseTable.Valid, ItemKey;
    ReachableInv(env, s);
    EntriesTableValid(env, s);
    assert Settling(s.live.tasks, i);
    assert HoldsLease(s.db.leases.rows, s.db.items.rows, i);
    forall k | k in s.db.leases.rows && s.db.leases.rows[k].holder == ForItem(i) ensures Some(k) == ItemKey(s.db.items.rows[i]) {
      assert HolderOk(k, s.db.leases.rows[k], s.db.items.rows, s.live.acts, s.live.tasks);
    }
  }

  /** A route's release takes away exactly the lease row inserted for its request. */
  lemma RouteReleasesOwnLease(env: Env, s: State, a: int)
    requires Reachable(env, s) && s.live.Up? && a in s.live.acts
    ensures forall k :: k in s.db.leases.rows ==>
      (k in Apply(env, s, Release(a)).db.leases.rows <==> s.db.leases.rows[k].holder != ForActivity(a))
  {
    hide EntriesValid, PromptsValid, ResultsValid, JobsOk, OneRunning, ItemsOk, BaselinesOk, TargetsDistinct, HistoryOrdered, HistoryOk, ChatOk;
    hide TasksOk, ActsOk, PrepsOk, BusyOk, WorkersOk, Reachable, ItemsHold, ItemKey, Unfinished, Settling;
    ReachableInv(env, s);
    EntriesTableValid(env, s);
    ReleaseKeepsLeases(s.db.leases, s.db.items.rows, s.live.acts, s.live.tasks, a);
    ActivityLease(s.db.leases.rows, s.db.items.rows, s.live.acts, s.live.tasks, a);
    hide Inv, LeaseTable.DropId, Table.Valid;
    assert Apply(env, s, Release(a)).db.leases == s.db.leases.DropId(s.live.acts[a].leaseId);
  }

  lemma ActivityLease(leases: map<Key, Lease>, items: map<int, Item>, acts: map<int, Activity>, tasks: map<int, TaskPc>, a: int)
    requires HoldersOk(leases, items, acts, tasks) && ActsHold(leases, acts) && a in acts
    ensures forall k :: k in leases ==> (leases[k].holder == ForActivity(a) <==> k == acts[a].key)
  {
    hide ItemKey, Unfinished, Settling;
    forall k | k in leases && leases[k].holder == ForActivity(a) ensures k == acts[a].key {
      assert HolderOk(k, leases[k], items, acts, tasks);
    }
  }

  /** No lease leaks: each row belongs to an unfinished or settling item, or to a live request,
      under that item's or request's own key. */
  lemma NoLeakedLease(env: Env, s: State, k: Key)
    requires Reachable(env, s) && s.live.Up? && k in s.db.leases.rows
    ensures HolderOk(k, s.db.leases.rows[k], s.db.items.rows, s.live.acts, s.live.tasks)
  {
    hide Stored, ItemsHold, ActsHold, TasksOk, ActsOk, PrepsOk, BusyOk, WorkersOk, Reachable;
    ReachableInv(env, s);
  }

  // ------------------------------------------------------------------ replay stability

  /** The identity of item i's request, rebuilt now from its job's prompt and stored snapshot. */
  function Rebuilt(env: Env, db: Db, i: int): Option<(int, string)> {
    if i in db.items.rows && db.items.rows[i].jobId in db.jobs.rows && db.jobs.rows[db.items.rows[i].jobId].promptId in db.prompts.rows then
      var job := db.jobs.rows[db.items.rows[i].jobId];
      env.assemble(Resolve(db.entries.rows, job.snapshot), db.prompts.rows[job.promptId], db.items.rows[i].targetType, db.items.rows[i].entryId)
    else None
  }

  /** The identity stored with item i. */
  function StoredIdentity(item: Item): Option<(int, string)> {
    if item.formatVersion.Some? && item.fingerprint.Some? then Some((item.formatVersion.value, item.fingerprint.value)) else None
  }

  lemma BackedMatches(env: Env, s: State, i: int)
    requires Inv(env, s) && Backed(s.db.jobs.rows, s.db.items.rows, i)
    ensures StillMatches(env, s.db, s.db.items.rows[i])
  {
    hide EntriesValid, PromptsValid, ResultsValid, JobsOk, OneRunning, BaselinesOk, TargetsDistinct, HistoryOrdered, HistoryOk, ChatOk, Attended;
    hide Matches;
  }

  /** Replay stability: whatever happens after admission (entries written, prompts activated, other
      jobs, crashes, restarts, retries), rebuilding an item's request gives the identity stored with
      it, the same one at every time. */
  lemma ReplayStability(env: Env, s: State, actions: seq<Action>, i: int)
    requires Reachable(env, s) && Backed(s.db.jobs.rows, s.db.items.rows, i)
    requires i in Run(env, s, actions).db.items.rows
    ensures var later := Run(env, s, actions).db;
      && Rebuilt(env, s.db, i).Some?
      && Rebuilt(env, later, i) == Rebuilt(env, s.db, i)
      && StoredIdentity(later.items.rows[i]) == StoredIdentity(s.db.items.rows[i]) == Rebuilt(env, s.db, i)
  {
    hide Inv, Reachable, Run;
    ReachableInv(env, s);
    RunGrows(env, s, actions);
    RebuiltIsStored(env, s, i);
    RebuiltIsStored(env, Run(env, s, actions), i);
    hide Rebuilt;
  }

  lemma RebuiltIsStored(env: Env, s: State, i: int)
    requires Inv(env, s) && Backed(s.db.jobs.rows, s.db.items.rows, i)
    ensures Rebuilt(env, s.db, i).Some? && Rebuilt(env, s.db, i) == StoredIdentity(s.db.items.rows[i])
  {
    hide Inv, Resolve;
    BackedMatches(env, s, i);
    var job := s.db.jobs.rows[s.db.items.rows[i].jobId];
    var got := env.assemble(Resolve(s.db.entries.rows, job.snapshot), s.db.prompts.rows[job.promptId],
                            s.db.items.rows[i].targetType, s.db.items.rows[i].entryId);
    var (version, mark) := got.value;
    assert got == Some((version, mark));
  }

  /** The worker's setup never refuses a job: what it checks still holds. */
  lemma SetupNeverRefuses(env: Env, s: State, job: int)
    requires Reachable(env, s) && s.live.Up? && job in s.live.workers && s.live.workers[job].phase == Scheduled
    ensures var after := Apply(env, s, Load(job));
      after.db == s.db && after.live.Up? && job in after.live.workers && after.live.workers[job].phase == Loaded
  {
    hide Inv, Reachable, SetupOk;
    ReachableInv(env, s);
    EntriesTableValid(env, s);
    SetupSucceeds(env, s, job);
  }

  lemma AllStillMatch(env: Env, s: State, job: int)
    requires Inv(env, s) && job in s.db.jobs.rows && s.db.jobs.rows[job].snapshotCount.Some?
    ensures AllMatch(env, s.db, job)
  {
    hide Inv, StillMatches;
    forall i | i in s.db.items.rows && s.db.items.rows[i].jobId == job ensures StillMatches(env, s.db, s.db.items.rows[i]) {
      BackedMatches(env, s, i);
    }
  }

  lemma WorkerJobBacked(env: Env, s: State, job: int)
    requires Inv(env, s) && s.live.Up? && job in s.live.workers
    ensures s.db.entries.Valid() && job in s.db.jobs.rows && s.db.jobs.rows[job].snapshotCount.Some?
  {
    hide PromptsValid, ResultsValid, JobsOk, OneRunning, ItemsOk, BaselinesOk, TargetsDistinct, HistoryOrdered, HistoryOk, ChatOk;
    hide LeasesOk, TasksOk, ActsOk, PrepsOk, BusyOk;
  }

  /** A recovered job is refused exactly when the model's limit is unknown or a prompt exceeds it;
      an admitted one never is. A changed request format is never the reason. */
  lemma RefusedOnlyForTheLimit(env: Env, s: State, job: int, known: bool, admits: bool)
    requires Reachable(env, s) && s.live.Up? && job in s.live.workers && s.live.workers[job].phase == Loaded
    ensures var after := Apply(env, s, LearnLimit(job, known, admits));
      if s.live.workers[job].recovering && !(known && admits) then
        after.live.Up? && job !in after.live.workers && job in after.db.jobs.rows && after.db.jobs.rows[job].status == JobCancelled
      else
        after.db == s.db && after.live.Up? && job in after.live.workers
        && after.live.workers[job] == Worker(s.live.workers[job].recovering, Claiming, known)
  {
    hide Inv, Reachable, AllMatch;
    ReachableInv(env, s);
    WorkerJobBacked(env, s, job);
    AllStillMatch(env, s, job);
  }

  /** A generation that ends with a text is always saved once the limit is known; one that does not
      fails the item. */
  lemma SettleOutcome(env: Env, s: State, i: int, text: Option<string>)
    requires Reachable(env, s) && s.live.Up? && i in s.live.tasks && s.live.tasks[i] == Generating
    ensures i in s.db.items.rows && s.db.items.rows[i].jobId in s.live.workers
    ensures var after := Apply(env, s, Settle(i, text));
      && after.live.Up? && i in after.live.tasks && after.live.tasks[i] == Settled && i in after.db.items.rows
      && after.db.items.rows[i].status ==
           (if text.Some? && s.live.workers[s.db.items.rows[i].jobId].limitKnown then Ok else Failed)
      && after.db.items.rows[i].attempts ==
           s.db.items.rows[i].attempts + if text.Some? && s.live.workers[s.db.items.rows[i].jobId].limitKnown then 0 else 1
  {
    hide Inv, Reachable, StillMatches, ResultTable, PruneOthers;
    ReachableInv(env, s);
    EntriesTableValid(env, s);
    GeneratingItem(env, s, i);
    InFlightTarget(env, s, i);
  }

  /** Every stored snapshot is a strictly increasing subsequence of the archive as it is now. */
  lemma SnapshotsStaySubsequences(env: Env, s: State, j: int)
    requires Reachable(env, s) && j in s.db.jobs.rows && s.db.jobs.rows[j].snapshotCount.Some?
    ensures s.db.entries.Valid()
    ensures SortedIds(s.db.entries.rows, s.db.jobs.rows[j].snapshot)
    ensures Subsequence(s.db.jobs.rows[j].snapshot, OrderedIds(s.db.entries))
  {
    hide PromptsValid, ResultsValid, OneRunning, ItemsOk, BaselinesOk, TargetsDistinct, HistoryOrdered, HistoryOk, ChatOk, Attended, Reachable;
    ReachableInv(env, s);
    OrderedIdsCanonical(s.db.entries, []);
    forall k | k in s.db.jobs.rows[j].snapshot ensures k in OrderedIds(s.db.entries) {
      var n :| 0 <= n < |s.db.jobs.rows[j].snapshot| && s.db.jobs.rows[j].snapshot[n] == k;
      assert s.db.jobs.rows[j].snapshot[n] in s.db.entries.rows;
    }
    SortedSubset(s.db.entries.rows, s.db.jobs.rows[j].snapshot, OrderedIds(s.db.entries));
  }

  /** An Entry Reflection item is about a member of its own job's snapshot. */
  lemma ItemEntryIsSnapshotMember(env: Env, s: State, i: int)
    requires Reachable(env, s) && Backed(s.db.jobs.rows, s.db.items.rows, i) && s.db.items.rows[i].targetType == EntryCommentary
    ensures s.db.items.rows[i].entryId.Some?
    ensures s.db.items.rows[i].entryId.value in s.db.jobs.rows[s.db.items.rows[i].jobId].snapshot
    ensures s.db.items.rows[i].entryId.value in s.db.entries.rows
  {
    hide EntriesValid, PromptsValid, ResultsValid, JobsOk, OneRunning, BaselinesOk, TargetsDistinct, HistoryOrdered, HistoryOk, ChatOk, Attended;
    hide Matches, Reachable;
    ReachableInv(env, s);
  }

  // ------------------------------------------------------------------ exactly-once results

  lemma BackedHistory(env: Env, s: State, i: int)
    requires Inv(env, s) && Backed(s.db.jobs.rows, s.db.items.rows, i)
    ensures if s.db.items.rows[i].status == Ok then RecordedOnce(s.db.items.rows[i], s.history, i) else Contributions(s.history, i) == 0
    ensures HistoryOrdered(s.history, s.db.commentary.next, s.db.reports.next)
  {
    hide EntriesValid, PromptsValid, ResultsValid, JobsOk, OneRunning, BaselinesOk, TargetsDistinct, ItemsOk, ChatOk, Attended;
    hide HistoryOrdered, Contributions;
  }

  /** An item is ok exactly if one result row was ever inserted for it, and that is the row it
      names; otherwise none was. */
  lemma OkExactlyIfRecorded(env: Env, s: State, i: int)
    requires Reachable(env, s) && Backed(s.db.jobs.rows, s.db.items.rows, i)
    ensures s.db.items.rows[i].status == Ok <==> Contributions(s.history, i) == 1
    ensures s.db.items.rows[i].status != Ok <==> Contributions(s.history, i) == 0
    ensures s.db.items.rows[i].status == Ok ==>
      s.db.items.rows[i].resultId.Some?
      && Produced(s.db.items.rows[i].targetType, s.db.items.rows[i].resultId.value, ForItem(i)) in s.history
  {
    hide Inv, Reachable;
    ReachableInv(env, s);
    BackedHistory(env, s, i);
  }

  /** Two ok items of the same kind never name the same result row. */
  lemma ResultsAreNotShared(env: Env, s: State, i: int, k: int)
    requires Reachable(env, s) && i != k
    requires Backed(s.db.jobs.rows, s.db.items.rows, i) && Backed(s.db.jobs.rows, s.db.items.rows, k)
    requires s.db.items.rows[i].status == Ok && s.db.items.rows[k].status == Ok
    requires s.db.items.rows[i].targetType == s.db.items.rows[k].targetType
    ensures s.db.items.rows[i].resultId != s.db.items.rows[k].resultId
  {
    hide Inv, Reachable, Contributions;
    ReachableInv(env, s);
    BackedHistory(env, s, i);
    BackedHistory(env, s, k);
    var tt := s.db.items.rows[i].targetType;
    var p, q := Produced(tt, s.db.items.rows[i].resultId.value, ForItem(i)), Produced(tt, s.db.items.rows[k].resultId.value, ForItem(k));
    var m :| 0 <= m < |s.history| && s.history[m] == p;
    var n :| 0 <= n < |s.history| && s.history[n] == q;
    assert m != n;
  }

  /** The step in which an item becomes ok is the step that inserts its row, and the only one that
      ever does: no other step inserts a row for it. */
  lemma OkInTheSameStep(env: Env, s: State, a: Action, i: int)
    requires Reachable(env, s) && Backed(s.db.jobs.rows, s.db.items.rows, i)
    ensures var after := Apply(env, s, a);
      Contributions(after.history, i) == Contributions(s.history, i) + 1 <==>
      (s.db.items.rows[i].status != Ok && i in after.db.items.rows && after.db.items.rows[i].status == Ok)
  {
    hide Inv, Reachable, Apply, Contributions;
    ReachableInv(env, s);
    StepGrows(env, s, a);
    ApplyInv(env, s, a);
    var after := Apply(env, s, a);
    BackedHistory(env, s, i);
    if i in after.db.items.rows {
      assert Backed(after.db.jobs.rows, after.db.items.rows, i);
      BackedHistory(env, after, i);
    }
    if after.history != s.history {
      ContributionsAfter(s.history, after.history[|s.history|], i);
      if after.history[|s.history|].origin == ForItem(i) {
        SettleKeepsItem(env, s, i, a);
      }
    }
  }

  lemma SettleKeepsItem(env: Env, s: State, i: int, a: Action)
    requires Inv(env, s) && a.Settle? && a.item == i && i in s.db.items.rows
    ensures i in Apply(env, s, a).db.items.rows
  {
    hide Inv, StillMatches, ResultTable, PruneOthers;
  }

  /** Over any run, no item ever contributes a second result row. */
  lemma {:induction false} AtMostOneResult(env: Env, s: State, actions: seq<Action>, i: int)
    requires Initial(s)
    ensures Contributions(Run(env, s, actions).history, i) <= 1
  {
    hide Initial, Inv, Apply, Contributions, Grows;
    if actions == [] {
      assert Contributions(s.history, i) == 0 by { NoHistoryYet(s, i); }
    } else {
      var n := |actions| - 1;
      var before := Run(env, s, actions[..n]);
      RunInv(env, s, actions[..n]);
      AtMostOneResult(env, s, actions[..n], i);
      StepGrows(env, before, actions[n]);
      var after := Apply(env, before, actions[n]);
      if after.history != before.history {
        var p := after.history[|before.history|];
        ContributionsAfter(before.history, p, i);
        if p.origin == ForItem(i) {
          SettledNow(env, before, actions[n], i);
        }
      }
    }
  }

  lemma NoHistoryYet(s: State, i: int)
    requires Initial(s)
    ensures Contributions(s.history, i) == 0
  {
  }

  /** A result row is only ever inserted for a running item of a snapshot-backed job. */
  lemma SettledNow(env: Env, s: State, a: Action, i: int)
    requires Inv(env, s) && a.Settle? && a.item == i && Apply(env, s, a).history != s.history
    ensures Backed(s.db.jobs.rows, s.db.items.rows, i) && Contributions(s.history, i) == 0
  {
    hide Inv, StillMatches, ResultTable, PruneOthers, Contributions;
    GeneratingItem(env, s, i);
    BackedHistory(env, s, i);
  }

  // ------------------------------------------------------------------ jobs

  /** At most one job runs; unfinished items exist only in it, so a done or cancelled job has none. */
  lemma UnfinishedOnlyInTheRunningJob(env: Env, s: State, i: int, j: int)
    requires Reachable(env, s) && i in s.db.items.rows && j in s.db.jobs.rows
    requires Unfinished(s.db.items.rows[i])
    ensures s.db.items.rows[i].jobId in s.db.jobs.rows
    ensures s.db.jobs.rows[j].status == JobRunning <==> j == s.db.items.rows[i].jobId
  {
    hide EntriesValid, PromptsValid, ResultsValid, JobsOk, BaselinesOk, TargetsDistinct, HistoryOrdered, HistoryOk, ChatOk, Attended;
    hide ItemGood, Reachable;
    ReachableInv(env, s);
  }

  /** No two unfinished items of snapshot-backed jobs have the same target. */
  lemma TargetsNeverShared(env: Env, s: State, i: int, k: int)
    requires Reachable(env, s) && i != k
    requires InFlight(s.db.jobs.rows, s.db.items.rows, i) && InFlight(s.db.jobs.rows, s.db.items.rows, k)
    ensures ItemKey(s.db.items.rows[i]) != ItemKey(s.db.items.rows[k])
  {
    hide EntriesValid, PromptsValid, ResultsValid, JobsOk, OneRunning, ItemsOk, BaselinesOk, HistoryOrdered, HistoryOk, ChatOk, Attended;
    hide Reachable, ItemKey;
    ReachableInv(env, s);
  }

  /** Recovery from any crash point a run can reach. */
  lemma RecoveryAfterAnyRun(env: Env, s: State)
    requires Reachable(env, s) && s.live.Down?
    ensures RecoveredExactly(s.db, Recover(s.db))
    ensures Apply(env, s, Restart).db == Recover(s.db).db
    ensures Apply(env, s, Restart).live.Up?
    ensures forall j :: j in Apply(env, s, Restart).live.workers <==> Resumable(s.db.jobs.rows, j)
  {
    hide Stored, Reachable, Recover, ExactlyTheirLeases, Resumable, Abandoned;
    ReachableInv(env, s);
    RecoveryCompleteAndExact(env, s.db, s.nextAct, s.history);
  }
}
