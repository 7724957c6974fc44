/** Every step of a background job preserves the invariant: admission, the worker, retry. */
module WorkSteps {
  import opened Tables
  import opened TargetKeys
  import opened Archive
  import opened Store
  import opened GenerationSafety
  import opened SafetyInvariant
  import opened SafetySteps

  // ------------------------------------------------------------------ admission

  /** A granted batch claim: one new lease per target, held for the item that target becomes; no
      target was leased before and no two share a key. */
  ghost predicate ClaimedFor(leases: LeaseTable, later: LeaseTable, targets: seq<Prepared>, firstItem: int)
    requires AllValid(targets)
  {
    && later.Valid()
    && (forall k :: k in leases.rows ==> k in later.rows && later.rows[k] == leases.rows[k])
    && (forall k :: k in later.rows && k !in leases.rows ==> ClaimedRow(k, later.rows[k], targets, firstItem))
    && (forall n :: 0 <= n < |targets| ==> ClaimedKey(leases, later, targets[n].Key(), firstItem + n))
  }

  predicate ClaimedRow(k: Key, lease: Lease, targets: seq<Prepared>, firstItem: int)
    requires AllValid(targets)
  {
    && lease.holder.ForItem? && firstItem <= lease.holder.itemId < firstItem + |targets|
    && targets[lease.holder.itemId - firstItem].Key() == k
  }

  predicate ClaimedKey(leases: LeaseTable, later: LeaseTable, k: Key, item: int) {
    k in later.rows && k !in leases.rows && later.rows[k].holder == ForItem(item)
  }

  lemma ClaimOneMore(leases: LeaseTable, before: LeaseTable, targets: seq<Prepared>, firstItem: int)
    requires AllValid(targets) && |targets| > 0
    requires ClaimedFor(leases, before, targets[..|targets| - 1], firstItem)
    requires targets[|targets| - 1].Key() !in before.rows
    ensures ClaimedFor(leases, before.Add(targets[|targets| - 1].Key(), Background, ForItem(firstItem + |targets| - 1)), targets, firstItem)
  {
    hide Prepared.Key, Prepared.Valid, ClaimedRow, ClaimedKey, LeaseTable.Valid;
    var n := |targets| - 1;
    var after := before.Add(targets[n].Key(), Background, ForItem(firstItem + n));
    AddStaysValid(before, targets[n].Key(), ForItem(firstItem + n));
    forall k | k in after.rows && k !in leases.rows ensures ClaimedRow(k, after.rows[k], targets, firstItem) {
      if k == targets[n].Key() {
        NewRow(k, after.rows[k], targets, firstItem);
      } else {
        assert ClaimedRow(k, before.rows[k], targets[..n], firstItem);
        RowStays(k, before.rows[k], targets, firstItem);
      }
    }
    forall m | 0 <= m < |targets| ensures ClaimedKey(leases, after, targets[m].Key(), firstItem + m) {
      if m < n {
        assert targets[..n][m] == targets[m];
        KeyStays(leases, before, after, targets[m].Key(), firstItem + m);
      } else {
        NewKey(leases, before, after, targets[n].Key(), firstItem + n);
      }
    }
  }

  lemma AddStaysValid(leases: LeaseTable, key: Key, holder: Holder)
    requires leases.Valid() && key !in leases.rows
    ensures leases.Add(key, Background, holder).Valid()
  {
  }

  lemma NewRow(k: Key, lease: Lease, targets: seq<Prepared>, firstItem: int)
    requires AllValid(targets) && |targets| > 0
    requires k == targets[|targets| - 1].Key() && lease.holder == ForItem(firstItem + |targets| - 1)
    ensures ClaimedRow(k, lease, targets, firstItem)
  {
    hide Prepared.Key, Prepared.Valid;
  }

  lemma KeyStays(leases: LeaseTable, before: LeaseTable, after: LeaseTable, k: Key, item: int)
    requires ClaimedKey(leases, before, k, item)
    requires forall k :: k in before.rows ==> k in after.rows && after.rows[k] == before.rows[k]
    ensures ClaimedKey(leases, after, k, item)
  {
  }

  lemma NewKey(leases: LeaseTable, before: LeaseTable, after: LeaseTable, k: Key, item: int)
    requires forall k :: k in leases.rows ==> k in before.rows
    requires k !in before.rows && k in after.rows && after.rows[k].holder == ForItem(item)
    ensures ClaimedKey(leases, after, k, item)
  {
  }

  lemma RowStays(k: Key, lease: Lease, targets: seq<Prepared>, firstItem: int)
    requires AllValid(targets) && |targets| > 0
    requires ClaimedRow(k, lease, targets[..|targets| - 1], firstItem)
    ensures ClaimedRow(k, lease, targets, firstItem)
  {
    hide Prepared.Key, Prepared.Valid;
    var n := |targets| - 1;
    assert targets[..n][lease.holder.itemId - firstItem] == targets[lease.holder.itemId - firstItem];
  }

  lemma {:induction false} ClaimTargetsFacts(leases: LeaseTable, targets: seq<Prepared>, firstItem: int)
    requires leases.Valid() && AllValid(targets)
    requires ClaimTargets(leases, targets, firstItem).Claimed?
    ensures ClaimedFor(leases, ClaimTargets(leases, targets, firstItem).leases, targets, firstItem)
  {
    if targets != [] {
      var n := |targets| - 1;
      ClaimTargetsFacts(leases, targets[..n], firstItem);
      hide ClaimedFor, Prepared.Key, Prepared.Valid;
      ClaimOneMore(leases, ClaimTargets(leases, targets[..n], firstItem).leases, targets, firstItem);
    }
  }

  /** The new items: one per target, in order, right after the old ones. */
  ghost predicate AddedItems(db: Db, later: Table<Item>, jobId: int, targets: seq<Prepared>) {
    && later.Valid() && later.next == db.items.next + |targets|
    && Extends(db.items.rows, later.rows)
    && (forall i :: i in later.rows ==> i in db.items.rows || db.items.next <= i < later.next)
    && (forall n :: 0 <= n < |targets| ==> AddedRow(db, later.rows, jobId, targets[n], db.items.next + n))
  }

  predicate AddedRow(db: Db, rows: map<int, Item>, jobId: int, target: Prepared, i: int) {
    i in rows && rows[i] == NewItem(db, jobId, target)
  }

  lemma {:induction false} AddItemsFacts(db: Db, jobId: int, targets: seq<Prepared>)
    requires db.items.Valid()
    ensures AddedItems(db, AddItems(db, jobId, targets), jobId, targets)
  {
    hide NewItem;
    if targets != [] {
      var n := |targets| - 1;
      AddItemsFacts(db, jobId, targets[..n]);
      AddOneItem(db, AddItems(db, jobId, targets[..n]), jobId, targets);
      hide AddedItems;
    }
  }

  lemma AddOneItem(db: Db, before: Table<Item>, jobId: int, targets: seq<Prepared>)
    requires db.items.Valid() && targets != [] && AddedItems(db, before, jobId, targets[..|targets| - 1])
    ensures AddedItems(db, before.Insert(NewItem(db, jobId, targets[|targets| - 1])), jobId, targets)
  {
    hide NewItem;
    var n := |targets| - 1;
    var after := before.Insert(NewItem(db, jobId, targets[n]));
    forall m | 0 <= m < |targets| ensures AddedRow(db, after.rows, jobId, targets[m], db.items.next + m) {
      if m < n {
        assert targets[..n][m] == targets[m];
        assert AddedRow(db, before.rows, jobId, targets[..n][m], db.items.next + m);
      }
    }
  }

  lemma AddedItem(db: Db, later: Table<Item>, jobId: int, targets: seq<Prepared>, i: int) returns (n: nat)
    requires AddedItems(db, later, jobId, targets) && i in later.rows && i !in db.items.rows
    ensures n < |targets| && i == db.items.next + n && later.rows[i] == NewItem(db, jobId, targets[n])
  {
    hide NewItem;
    n := i - db.items.next;
    assert AddedRow(db, later.rows, jobId, targets[n], i);
  }

  /** While no job runs, no item of any job is unfinished. */
  lemma NothingUnfinished(env: Env, entries: Entries, prompts: map<int, Prompt>, jobs: map<int, Job>, items: map<int, Item>)
    requires ItemsOk(env, entries, prompts, jobs, items)
    requires forall j :: j in jobs ==> jobs[j].status != JobRunning
    ensures forall i :: i in items ==> !Unfinished(items[i])
  {
    hide ItemGood;
  }

  /** What a successful enqueue did, in one place. */
  ghost predicate Enqueued(db: Db, later: Db, jobId: int, promptId: int, targets: seq<Prepared>)
    requires db.entries.Valid() && AllValid(targets)
  {
    && later == db.(prompts := later.prompts, activePrompt := later.activePrompt, leases := later.leases,
                    jobs := later.jobs, items := later.items)
    && Extends(db.prompts.rows, later.prompts.rows) && PromptsValid(later.prompts, later.activePrompt)
    && promptId in later.prompts.rows
    && jobId == db.jobs.next
    && later.jobs == db.jobs.Insert(Job(promptId, JobRunning, Some(|OrderedIds(db.entries)|), OrderedIds(db.entries)))
    && AddedItems(db, later.items, jobId, targets)
    && ClaimedFor(db.leases, later.leases, targets, db.items.next)
    && !SomeJobRunning(db.jobs)
    && TargetsExist(db.entries, targets)
    && !db.locked
  }

  lemma EnqueueFacts(db: Db, prompt: PromptChoice, preflight: seq<int>, targets: seq<Prepared>) returns (promptId: int)
    requires db.entries.Valid() && db.items.Valid() && db.leases.Valid() && PromptsValid(db.prompts, db.activePrompt)
    requires AllValid(targets) && Enqueue(db, prompt, preflight, targets).1.Success?
    ensures preflight == OrderedIds(db.entries)
    ensures Enqueued(db, Enqueue(db, prompt, preflight, targets).0, Enqueue(db, prompt, preflight, targets).1.value, promptId, targets)
    ensures match prompt
            case Existing(id) => promptId == id && Enqueue(db, prompt, preflight, targets).0.prompts == db.prompts
            case Activate(body, model) => Enqueue(db, prompt, preflight, targets).0.prompts.rows[promptId] == Prompt(body, model)
  {
    hide OrderedIds, NewItem;
    promptId := ChosenPrompt(db, prompt).1;
    ClaimTargetsFacts(db.leases, targets, db.items.next);
    AddItemsFacts(db, db.jobs.next, targets);
    if prompt.Activate? {
      InsertExtends(db.prompts, Prompt(prompt.body, prompt.model));
    }
  }

  lemma NewItemGood(env: Env, db: Db, jobId: int, prompt: Prompt, targets: seq<Prepared>, n: nat)
    requires db.entries.Valid() && n < |targets|
    requires TargetsMatch(env, db.entries.rows, prompt, OrderedIds(db.entries), targets) && TargetsExist(db.entries, targets)
    ensures ItemGood(env, db.entries.rows, prompt, OrderedIds(db.entries), NewItem(db, jobId, targets[n]))
  {
    hide Resolve, Current;
    var t := targets[n];
    assert t.Valid();
    assert PreparedTarget(env, Resolve(db.entries.rows, OrderedIds(db.entries)), prompt, t.targetType, t.entryId) == Some(t);
  }

  lemma SubmittedItems(env: Env, db: Db, later: Db, jobId: int, promptId: int, targets: seq<Prepared>)
    requires AllValid(targets) && EntriesValid(db.entries) && db.jobs.Valid() && db.items.Valid()
    requires Enqueued(db, later, jobId, promptId, targets)
    requires TargetsMatch(env, db.entries.rows, later.prompts.rows[promptId], OrderedIds(db.entries), targets)
    requires JobsOk(db.entries.rows, db.prompts.rows, db.jobs.rows)
    requires ItemsOk(env, db.entries.rows, db.prompts.rows, db.jobs.rows, db.items.rows)
    ensures JobsOk(db.entries.rows, later.prompts.rows, later.jobs.rows)
    ensures ItemsOk(env, db.entries.rows, later.prompts.rows, later.jobs.rows, later.items.rows)
  {
    hide OrderedIds, NewItem, ItemGood, TargetsMatch, ClaimedFor, SortedIds;
    OrderedIdsCanonical(db.entries, []);
    PromptsStayGood(env, db.entries.rows, db.prompts.rows, later.prompts.rows, db.jobs.rows, db.items.rows);
    forall i | i in later.items.rows
      ensures later.items.rows[i].jobId in later.jobs.rows
      ensures Unfinished(later.items.rows[i]) ==> later.jobs.rows[later.items.rows[i].jobId].status == JobRunning
      ensures var job := later.jobs.rows[later.items.rows[i].jobId];
        job.snapshotCount.Some? ==>
          && job.promptId in later.prompts.rows
          && ItemGood(env, db.entries.rows, later.prompts.rows[job.promptId], job.snapshot, later.items.rows[i])
    {
      if i in db.items.rows {
        assert later.items.rows[i] == db.items.rows[i];
      } else {
        var n := AddedItem(db, later.items, jobId, targets, i);
        NewItemGood(env, db, jobId, later.prompts.rows[promptId], targets, n);
        assert NewItem(db, jobId, targets[n]).jobId == jobId by { NewItemShape(db, jobId, targets[n]); }
      }
    }
  }

  lemma NewItemShape(db: Db, jobId: int, target: Prepared)
    requires target.Valid()
    ensures var item := NewItem(db, jobId, target);
      && item.jobId == jobId && item.status == Pending && ItemKey(item) == Some(target.Key())
      && item.targetType == target.targetType && item.entryId == target.entryId
      && item.baseline == CurrentResult(db, target.targetType, target.entryId)
  {
  }

  lemma SubmittedInFlight(env: Env, db: Db, later: Db, jobId: int, promptId: int, targets: seq<Prepared>)
    requires AllValid(targets) && EntriesValid(db.entries) && db.jobs.Valid() && db.items.Valid()
    requires Enqueued(db, later, jobId, promptId, targets)
    requires ItemsOk(env, db.entries.rows, db.prompts.rows, db.jobs.rows, db.items.rows)
    ensures BaselinesOk(later.jobs.rows, later.items.rows, later.commentary, later.reports)
    ensures TargetsDistinct(later.jobs.rows, later.items.rows)
  {
    hide OrderedIds, NewItem, ItemGood, Current;
    NothingUnfinished(env, db.entries.rows, db.prompts.rows, db.jobs.rows, db.items.rows);
    forall i | i in db.items.rows ensures !InFlight(later.jobs.rows, later.items.rows, i) {
      assert later.items.rows[i] == db.items.rows[i];
    }
    forall i | InFlight(later.jobs.rows, later.items.rows, i)
      ensures later.items.rows[i].baseline ==
        Current(if later.items.rows[i].targetType == EntryCommentary then later.commentary else later.reports, later.items.rows[i].entryId)
    {
      var n := AddedItem(db, later.items, jobId, targets, i);
      NewItemShape(db, jobId, targets[n]);
    }
    forall i, k | InFlight(later.jobs.rows, later.items.rows, i) && InFlight(later.jobs.rows, later.items.rows, k) && i != k
      ensures ItemKey(later.items.rows[i]) != ItemKey(later.items.rows[k])
    {
      var m := AddedItem(db, later.items, jobId, targets, i);
      var n := AddedItem(db, later.items, jobId, targets, k);
      NewItemShape(db, jobId, targets[m]);
      NewItemShape(db, jobId, targets[n]);
      assert ClaimedKey(db.leases, later.leases, targets[m].Key(), db.items.next + m);
      assert ClaimedKey(db.leases, later.leases, targets[n].Key(), db.items.next + n);
    }
  }

  lemma SubmittedLeases(db: Db, later: Db, jobId: int, promptId: int, targets: seq<Prepared>, acts: map<int, Activity>, tasks: map<int, TaskPc>)
    requires AllValid(targets) && db.entries.Valid() && db.items.Valid()
    requires Enqueued(db, later, jobId, promptId, targets)
    requires LeasesOk(db.leases.rows, db.items.rows, acts, tasks)
    ensures LeasesOk(later.leases.rows, later.items.rows, acts, tasks)
  {
    hide OrderedIds, NewItem, ItemKey, Unfinished;
    assert ActsHold(later.leases.rows, acts) by {
      forall a | a in acts ensures later.leases.rows[acts[a].key] == db.leases.rows[acts[a].key] {
        var k := acts[a].key;
        assert k in db.leases.rows;
      }
    }
    assert HoldersOk(later.leases.rows, later.items.rows, acts, tasks) by {
      SubmittedHolders(db, later, jobId, promptId, targets, acts, tasks);
    }
    assert ItemsHold(later.leases.rows, later.items.rows, tasks) by {
      SubmittedHolds(db, later, jobId, promptId, targets, tasks);
    }
  }

  lemma SubmittedHolders(db: Db, later: Db, jobId: int, promptId: int, targets: seq<Prepared>, acts: map<int, Activity>, tasks: map<int, TaskPc>)
    requires AllValid(targets) && db.entries.Valid() && db.items.Valid()
    requires Enqueued(db, later, jobId, promptId, targets)
    requires HoldersOk(db.leases.rows, db.items.rows, acts, tasks)
    ensures HoldersOk(later.leases.rows, later.items.rows, acts, tasks)
  {
    hide OrderedIds, NewItem, ItemKey, Settling, LeaseTable.Valid, Prepared.Key, ClaimedKey;
    forall k | k in later.leases.rows ensures HolderOk(k, later.leases.rows[k], later.items.rows, acts, tasks) {
      if k in db.leases.rows {
        assert HolderOk(k, db.leases.rows[k], db.items.rows, acts, tasks);
        if db.leases.rows[k].holder.ForItem? {
          var i := db.leases.rows[k].holder.itemId;
          assert i in db.items.rows;
        }
      } else {
        assert ClaimedRow(k, later.leases.rows[k], targets, db.items.next);
        var n := later.leases.rows[k].holder.itemId - db.items.next;
        assert AddedRow(db, later.items.rows, jobId, targets[n], db.items.next + n);
        NewItemShape(db, jobId, targets[n]);
      }
    }
  }

  lemma SubmittedHolds(db: Db, later: Db, jobId: int, promptId: int, targets: seq<Prepared>, tasks: map<int, TaskPc>)
    requires AllValid(targets) && db.entries.Valid() && db.items.Valid()
    requires Enqueued(db, later, jobId, promptId, targets)
    requires ItemsHold(db.leases.rows, db.items.rows, tasks)
    ensures ItemsHold(later.leases.rows, later.items.rows, tasks)
  {
    hide OrderedIds, NewItem, ItemKey, Unfinished, LeaseTable.Valid, Prepared.Key, ClaimedRow;
    forall i | i in later.items.rows && (Unfinished(later.items.rows[i]) || Settling(tasks, i))
      ensures HoldsLease(later.leases.rows, later.items.rows, i)
    {
      if i in db.items.rows {
        assert later.items.rows[i] == db.items.rows[i];
        assert HoldsLease(db.leases.rows, db.items.rows, i);
        var k := ItemKey(db.items.rows[i]).value;
        assert k in db.leases.rows;
      } else {
        var n := AddedItem(db, later.items, jobId, targets, i);
        NewItemShape(db, jobId, targets[n]);
        assert ClaimedKey(db.leases, later.leases, targets[n].Key(), db.items.next + n);
      }
    }
    forall i | Settling(tasks, i) ensures i in later.items.rows {
      assert HoldsLease(db.leases.rows, db.items.rows, i);
    }
  }

  lemma SubmittedHistory(db: Db, later: Db, jobId: int, promptId: int, targets: seq<Prepared>, history: seq<Produced>)
    requires AllValid(targets) && db.entries.Valid() && db.items.Valid() && db.jobs.Valid()
    requires Enqueued(db, later, jobId, promptId, targets)
    requires forall i :: i in db.items.rows ==> db.items.rows[i].jobId in db.jobs.rows
    requires HistoryOk(db.jobs.rows, db.items, history)
    ensures HistoryOk(later.jobs.rows, later.items, history)
  {
    hide OrderedIds, NewItem, RecordedOnce, ClaimedFor, Contributions;
    forall i | Backed(later.jobs.rows, later.items.rows, i)
      ensures if later.items.rows[i].status == Ok then RecordedOnce(later.items.rows[i], history, i) else Contributions(history, i) == 0
    {
      if i in db.items.rows {
        assert later.items.rows[i] == db.items.rows[i];
        assert Backed(db.jobs.rows, db.items.rows, i);
      } else {
        var n := AddedItem(db, later.items, jobId, targets, i);
        NewItemShape(db, jobId, targets[n]);
      }
    }
  }

  lemma SubmittedTasks(db: Db, later: Db, jobId: int, promptId: int, targets: seq<Prepared>, workers: map<int, Worker>, tasks: map<int, TaskPc>)
    requires AllValid(targets) && db.entries.Valid() && db.items.Valid() && db.jobs.Valid()
    requires Enqueued(db, later, jobId, promptId, targets)
    requires TasksOk(db.items.rows, workers, tasks) && WorkersOk(db.jobs.rows, workers)
    ensures TasksOk(later.items.rows, workers[jobId := Worker(false, Scheduled, false)], tasks)
    ensures WorkersOk(later.jobs.rows, workers[jobId := Worker(false, Scheduled, false)])
    ensures forall j :: BusyTasks(later.items.rows, tasks, j) == BusyTasks(db.items.rows, tasks, j)
  {
    hide OrderedIds, NewItem, ClaimedFor;
    assert jobId !in workers;
    forall i | i in later.items.rows && i !in db.items.rows
      ensures later.items.rows[i].status == Pending && later.items.rows[i].jobId == jobId
    {
      var n := AddedItem(db, later.items, jobId, targets, i);
      NewItemShape(db, jobId, targets[n]);
    }
    SameBusyTasks(db.items.rows, later.items.rows, tasks);
  }

  /** Tasks look only at the items they run. */
  lemma SameBusyTasks(items: map<int, Item>, later: map<int, Item>, tasks: map<int, TaskPc>)
    requires forall i :: i in tasks ==> i in items && i in later && later[i].jobId == items[i].jobId
    ensures forall j :: BusyTasks(later, tasks, j) == BusyTasks(items, tasks, j)
  {
    forall j ensures BusyTasks(later, tasks, j) == BusyTasks(items, tasks, j) {
      forall i ensures i in BusyTasks(later, tasks, j) <==> i in BusyTasks(items, tasks, j) {
      }
    }
  }

  lemma SubmitStep(env: Env, s: State, p: int)
    requires Inv(env, s) && s.live.Up? && s.db.entries.Valid()
    ensures Inv(env, DoSubmit(s, p))
  {
    hide OrderedIds, ResultsValid, HistoryOrdered, ChatOk, ActOk, Current;
    hide EntriesValid, JobsOk, ItemsOk, BaselinesOk, TargetsDistinct, HistoryOk, LeasesOk, TasksOk, WorkersOk, BusyOk, ActsOk, TargetsMatch, ClaimedFor, AddedItems, Enqueue, Table.Valid;
    if p in s.live.preps && AllValid(s.live.preps[p].targets) {
      var prep := s.live.preps[p];
      if Enqueue(s.db, prep.prompt, prep.ids, prep.targets).1.Success? {
        var promptId := EnqueueFacts(s.db, prep.prompt, prep.ids, prep.targets);
        var (later, outcome) := Enqueue(s.db, prep.prompt, prep.ids, prep.targets);
        var jobId := outcome.value;
        assert PrepOk(env, s.db.entries.rows, s.db.prompts.rows, prep);
        SubmittedItems(env, s.db, later, jobId, promptId, prep.targets);
        SubmittedInFlight(env, s.db, later, jobId, promptId, prep.targets);
        SubmittedLeases(s.db, later, jobId, promptId, prep.targets, s.live.acts, s.live.tasks);
        ItemsHaveJobs(env, s.db.entries.rows, s.db.prompts.rows, s.db.jobs.rows, s.db.items.rows);
        SubmittedHistory(s.db, later, jobId, promptId, prep.targets, s.history);
        SubmittedTasks(s.db, later, jobId, promptId, prep.targets, s.live.workers, s.live.tasks);
        assert BusyOk(env, later.items.rows, s.live.tasks) by {
          SameBusy(env, s.db.items.rows, later.items.rows, s.live.tasks);
        }
        PrepsStayOk(env, s.db.entries.rows, s.db.entries.rows, s.db.prompts.rows, later.prompts.rows, s.live.preps);
        ActsStayOk(s.db.entries.rows, s.db.entries.rows, s.db.prompts.rows, later.prompts.rows, s.db.sessions.rows, s.db.logs, s.live.acts, s.nextAct);
        SubmittedTables(s.db, later, jobId, promptId, prep.targets);
      } else {
        EnqueueRefused(s.db, prep.prompt, prep.ids, prep.targets);
      }
    }
  }

  lemma ItemsHaveJobs(env: Env, entries: Entries, prompts: map<int, Prompt>, jobs: map<int, Job>, items: map<int, Item>)
    requires ItemsOk(env, entries, prompts, jobs, items)
    ensures forall i :: i in items ==> items[i].jobId in jobs
  {
    hide ItemGood;
  }

  lemma SameBusy(env: Env, items: map<int, Item>, later: map<int, Item>, tasks: map<int, TaskPc>)
    requires BusyOk(env, items, tasks)
    requires forall j :: BusyTasks(later, tasks, j) == BusyTasks(items, tasks, j)
    ensures BusyOk(env, later, tasks)
  {
    hide BusyTasks;
    forall j ensures BusyWithin(env.concurrency, later, tasks, j) {
      assert BusyWithin(env.concurrency, items, tasks, j);
    }
  }

  lemma SubmittedTables(db: Db, later: Db, jobId: int, promptId: int, targets: seq<Prepared>)
    requires AllValid(targets) && db.entries.Valid() && db.jobs.Valid() && Enqueued(db, later, jobId, promptId, targets)
    requires OneRunning(db.jobs.rows)
    ensures later.jobs.Valid() && later.items.Valid() && later.leases.Valid() && OneRunning(later.jobs.rows)
  {
    hide OrderedIds, NewItem;
  }

  /** A refused enqueue writes nothing. */
  lemma EnqueueRefused(db: Db, prompt: PromptChoice, preflight: seq<int>, targets: seq<Prepared>)
    requires db.entries.Valid() && AllValid(targets)
    ensures Enqueue(db, prompt, preflight, targets).1.Failure? ==> Enqueue(db, prompt, preflight, targets).0 == db
  {
    hide OrderedIds, NewItem;
  }

  // ------------------------------------------------------------------ the worker's setup

  /** `run_job`'s setup cannot fail: prompt, snapshot and every snapshotted entry are still there. */
  lemma SetupSucceeds(env: Env, s: State, job: int)
    requires Inv(env, s) && s.live.Up? && job in s.live.workers
    ensures SetupOk(s.db, job)
  {
    hide EntriesValid, PromptsValid, ResultsValid, OneRunning, ItemsOk, BaselinesOk, TargetsDistinct, HistoryOrdered, HistoryOk, ChatOk;
    hide LeasesOk, TasksOk, ActsOk, PrepsOk, BusyOk, Table.Valid, LeaseTable.Valid;
  }

  /** A step that only moves a worker's own bookkeeping. */
  lemma WorkerOnlyStep(env: Env, s: State, job: int, w: Worker)
    requires Inv(env, s) && s.live.Up? && job in s.live.workers
    requires TasksOk(s.db.items.rows, s.live.workers[job := w], s.live.tasks)
    ensures Inv(env, s.(live := s.live.(workers := s.live.workers[job := w])))
  {
    hide EntriesValid, PromptsValid, ResultsValid, JobsOk, OneRunning, ItemsOk, BaselinesOk, TargetsDistinct, HistoryOrdered, HistoryOk, ChatOk;
    hide LeasesOk, TasksOk, ActsOk, PrepsOk, BusyOk, Table.Valid, LeaseTable.Valid;
  }

  lemma LoadStep(env: Env, s: State, job: int)
    requires Inv(env, s) && s.live.Up?
    ensures Inv(env, DoLoad(s, job))
  {
    hide Stored, LeasesOk, WorkersOk, ActsOk, PrepsOk, BusyOk, Resolve, CancelAndRelease;
    if job in s.live.workers && s.live.workers[job].phase == Scheduled {
      SetupSucceeds(env, s, job);
      WorkerOnlyStep(env, s, job, s.live.workers[job].(phase := Loaded));
    }
  }

  // ------------------------------------------------------------------ refusing a job

  lemma KeysReleased(leases: map<Key, Lease>, items: Table<Item>, acts: map<int, Activity>, tasks: map<int, TaskPc>, job: int, k: Key)
    requires ItemsHold(leases, items.rows, tasks) && k in UnfinishedKeys(items, job)
    ensures k in leases && leases[k].holder.ForItem?
    ensures leases[k].holder.itemId in items.rows
    ensures items.rows[leases[k].holder.itemId].jobId == job && Unfinished(items.rows[leases[k].holder.itemId])
  {
    var i :| i in items.rows && items.rows[i].jobId == job && Unfinished(items.rows[i]) && ItemKey(items.rows[i]) == Some(k);
    assert HoldsLease(leases, items.rows, i);
  }

  lemma RefuseLeases(leases: map<Key, Lease>, items: Table<Item>, acts: map<int, Activity>, tasks: map<int, TaskPc>, later: map<int, TaskPc>, job: int)
    requires LeasesOk(leases, items.rows, acts, tasks)
    requires forall i :: i in later <==> i in tasks && !(i in items.rows && items.rows[i].jobId == job)
    requires forall i :: i in later ==> later[i] == tasks[i]
    requires forall i :: i in tasks && i in items.rows && items.rows[i].jobId == job ==> tasks[i] != Settled
    ensures LeasesOk(leases - UnfinishedKeys(items, job), DropUnfinished(items, job).rows, acts, later)
  {
    hide Unfinished;
    var kept := leases - UnfinishedKeys(items, job);
    var rows := DropUnfinished(items, job).rows;
    forall k | k in kept ensures HolderOk(k, kept[k], rows, acts, later) {
      assert HolderOk(k, leases[k], items.rows, acts, tasks);
      assert k !in UnfinishedKeys(items, job);
    }
    forall a | a in acts ensures acts[a].key in kept {
      var k := acts[a].key;
      assert k in leases && leases[k].holder == ForActivity(a);
      if k in UnfinishedKeys(items, job) {
        KeysReleased(leases, items, acts, tasks, job, k);
      }
    }
    forall i | i in rows && (Unfinished(rows[i]) || Settling(later, i)) ensures HoldsLease(kept, rows, i) {
      assert HoldsLease(leases, items.rows, i);
      var k := ItemKey(items.rows[i]).value;
      if k in UnfinishedKeys(items, job) {
        KeysReleased(leases, items, acts, tasks, job, k);
      }
    }
    forall i | Settling(later, i) ensures i in rows {
      assert Settling(tasks, i) && HoldsLease(leases, items.rows, i);
    }
  }

  /** Losing its unfinished items and becoming cancelled keeps everything said about stored work. */
  lemma CancelKeepsWork(env: Env, db: Db, job: int, history: seq<Produced>)
    requires job in db.jobs.rows && db.jobs.Valid() && db.items.Valid()
    requires JobsOk(db.entries.rows, db.prompts.rows, db.jobs.rows) && OneRunning(db.jobs.rows)
    requires ItemsOk(env, db.entries.rows, db.prompts.rows, db.jobs.rows, db.items.rows)
    requires BaselinesOk(db.jobs.rows, db.items.rows, db.commentary, db.reports) && TargetsDistinct(db.jobs.rows, db.items.rows)
    requires HistoryOk(db.jobs.rows, db.items, history)
    ensures var after := CancelJob(db, job);
      && after.jobs.Valid() && after.items.Valid()
      && JobsOk(after.entries.rows, after.prompts.rows, after.jobs.rows) && OneRunning(after.jobs.rows)
      && ItemsOk(env, after.entries.rows, after.prompts.rows, after.jobs.rows, after.items.rows)
      && BaselinesOk(after.jobs.rows, after.items.rows, after.commentary, after.reports)
      && TargetsDistinct(after.jobs.rows, after.items.rows)
      && HistoryOk(after.jobs.rows, after.items, history)
  {
    hide SortedIds, ItemGood, Current, RecordedOnce, Contributions, ItemKey;
    var after := CancelJob(db, job);
    assert forall i :: i in after.items.rows ==> i in db.items.rows && after.items.rows[i] == db.items.rows[i];
    assert forall i :: Backed(after.jobs.rows, after.items.rows, i) ==> Backed(db.jobs.rows, db.items.rows, i);
  }

  /** No task of a job exists before its worker starts claiming. */
  lemma NoTasksYet(items: map<int, Item>, workers: map<int, Worker>, tasks: map<int, TaskPc>, job: int)
    requires TasksOk(items, workers, tasks) && job in workers
    requires workers[job].phase == Scheduled || workers[job].phase == Loaded
    ensures forall i :: i in tasks && i in items ==> items[i].jobId != job
  {
  }

  lemma RefuseTasks(items: Table<Item>, workers: map<int, Worker>, tasks: map<int, TaskPc>, job: int)
    requires TasksOk(items.rows, workers, tasks)
    requires forall i :: i in tasks && i in items.rows ==> items.rows[i].jobId != job
    ensures TasksOk(DropUnfinished(items, job).rows, workers - {job}, tasks)
    ensures forall j :: BusyTasks(DropUnfinished(items, job).rows, tasks, j) == BusyTasks(items.rows, tasks, j)
  {
    SameBusyTasks(items.rows, DropUnfinished(items, job).rows, tasks);
  }

  lemma RefuseStep(env: Env, s: State, job: int)
    requires Inv(env, s) && s.live.Up? && job in s.live.workers
    requires s.live.workers[job].phase == Scheduled || s.live.workers[job].phase == Loaded
    ensures Inv(env, Refuse(s, job))
  {
    hide EntriesValid, PromptsValid, ResultsValid, JobsOk, OneRunning, ItemsOk, BaselinesOk, TargetsDistinct, HistoryOrdered, HistoryOk, ChatOk;
    hide LeasesOk, TasksOk, ActsOk, PrepsOk, BusyOk, Table.Valid, UnfinishedKeys, DropUnfinished;
    NoTasksYet(s.db.items.rows, s.live.workers, s.live.tasks, job);
    forall i ensures i !in TasksOf(s, job) {
    }
    assert s.live.tasks - TasksOf(s, job) == s.live.tasks;
    assert WorkersOk(s.db.jobs.rows, s.live.workers);
    var freed := s.db.(leases := LeaseTable(s.db.leases.rows - UnfinishedKeys(s.db.items, job), s.db.leases.next));
    CancelKeepsWork(env, freed, job, s.history);
    NoSettledOf(s.db.items.rows, s.live.workers, s.live.tasks, job);
    RefuseLeases(s.db.leases.rows, s.db.items, s.live.acts, s.live.tasks, s.live.tasks, job);
    RefuseTasks(s.db.items, s.live.workers, s.live.tasks, job);
    SameBusy(env, s.db.items.rows, DropUnfinished(s.db.items, job).rows, s.live.tasks);
  }

  lemma NoSettledOf(items: map<int, Item>, workers: map<int, Worker>, tasks: map<int, TaskPc>, job: int)
    requires TasksOk(items, workers, tasks)
    requires forall i :: i in tasks && i in items ==> items[i].jobId != job
    ensures forall i :: i in tasks ==> i in items && items[i].jobId != job
  {
  }

  lemma LearnLimitStep(env: Env, s: State, job: int, known: bool, admits: bool)
    requires Inv(env, s) && s.live.Up?
    ensures Inv(env, DoLearnLimit(env, s, job, known, admits))
  {
    hide Stored, LeasesOk, WorkersOk, ActsOk, PrepsOk, BusyOk, Refuse, AllMatch;
    if job in s.live.workers && s.live.workers[job].phase == Loaded {
      var w := s.live.workers[job];
      if w.recovering && !(known && admits && AllMatch(env, s.db, job)) {
        RefuseStep(env, s, job);
      } else {
        WorkerOnlyStep(env, s, job, w.(phase := Claiming, limitKnown := known));
      }
    }
  }

  lemma EndClaimsStep(env: Env, s: State, job: int)
    requires Inv(env, s) && s.live.Up?
    ensures Inv(env, DoEndClaims(s, job))
  {
    hide Stored, LeasesOk, WorkersOk, ActsOk, PrepsOk, BusyOk;
    if job in s.live.workers && s.live.workers[job].phase == Claiming && !AnyPending(s.db, job) {
      WorkerOnlyStep(env, s, job, s.live.workers[job].(phase := Draining));
    }
  }

  // ------------------------------------------------------------------ one item changes

  /** `later` is the same unit of work as `item`: only status, result and error may differ. */
  predicate SameWork(item: Item, later: Item) {
    later == item.(status := later.status, resultId := later.resultId, attempts := later.attempts, error := later.error)
  }

  lemma ItemChanges(env: Env, entries: Entries, prompts: map<int, Prompt>, jobs: map<int, Job>, items: map<int, Item>, i: int, later: Item)
    requires ItemsOk(env, entries, prompts, jobs, items) && i in items && SameWork(items[i], later)
    requires Unfinished(later) ==> items[i].jobId in jobs && jobs[items[i].jobId].status == JobRunning
    ensures ItemsOk(env, entries, prompts, jobs, items[i := later])
  {
    forall k | k in items && jobs[items[k].jobId].snapshotCount.Some?
      ensures ItemGood(env, entries, prompts[jobs[items[k].jobId].promptId], jobs[items[k].jobId].snapshot, items[i := later][k])
    {
      assert ItemGood(env, entries, prompts[jobs[items[k].jobId].promptId], jobs[items[k].jobId].snapshot, items[k]);
    }
  }

  /** Changing an item that was in flight, or taking it out of flight, keeps the baselines. */
  lemma InFlightChanges(jobs: map<int, Job>, items: map<int, Item>, i: int, later: Item, commentary: Table<ResultRow>, reports: Table<ResultRow>)
    requires BaselinesOk(jobs, items, commentary, reports) && TargetsDistinct(jobs, items)
    requires i in items && SameWork(items[i], later) && (Unfinished(later) ==> Unfinished(items[i]))
    ensures BaselinesOk(jobs, items[i := later], commentary, reports) && TargetsDistinct(jobs, items[i := later])
  {
    hide Current;
    var rows := items[i := later];
    assert forall k :: InFlight(jobs, rows, k) ==> InFlight(jobs, items, k);
    assert forall k :: k in rows ==> ItemKey(rows[k]) == ItemKey(items[k]);
  }

  /** A change of status that neither makes nor unmakes an ok item. */
  lemma HistoryChanges(jobs: map<int, Job>, items: Table<Item>, i: int, later: Item, history: seq<Produced>)
    requires HistoryOk(jobs, items, history) && i in items.rows && SameWork(items.rows[i], later)
    requires items.rows[i].status != Ok && later.status != Ok
    ensures HistoryOk(jobs, items.Set(i, later), history)
  {
    hide Contributions;
    forall k | Backed(jobs, items.Set(i, later).rows, k)
      ensures Backed(jobs, items.rows, k)
    {
    }
  }

  lemma ClaimStep(env: Env, s: State, i: int)
    requires Inv(env, s) && s.live.Up?
    ensures Inv(env, DoClaim(s, i))
  {
    hide EntriesValid, PromptsValid, ResultsValid, JobsOk, OneRunning, BaselinesOk, TargetsDistinct, HistoryOrdered, HistoryOk, ChatOk;
    hide LeasesOk, WorkersOk, ActsOk, PrepsOk, BusyOk, LeaseTable.Valid, ItemGood, TasksOk;
    var after := DoClaim(s, i);
    if after != s {
      var item := s.db.items.rows[i];
      var later := item.(status := Running);
      ItemChanges(env, s.db.entries.rows, s.db.prompts.rows, s.db.jobs.rows, s.db.items.rows, i, later);
      InFlightChanges(s.db.jobs.rows, s.db.items.rows, i, later, s.db.commentary, s.db.reports);
      HistoryChanges(s.db.jobs.rows, s.db.items, i, later, s.history);
      ClaimLeases(s.db.leases.rows, s.db.items.rows, s.live.acts, s.live.workers, s.live.tasks, i, later);
      ClaimTasks(env, s.db.items.rows, s.live.workers, s.live.tasks, i, later);
    }
  }

  lemma ClaimLeases(leases: map<Key, Lease>, items: map<int, Item>, acts: map<int, Activity>, workers: map<int, Worker>,
                    tasks: map<int, TaskPc>, i: int, later: Item)
    requires LeasesOk(leases, items, acts, tasks) && TasksOk(items, workers, tasks)
    requires i in items && items[i].status == Pending && SameWork(items[i], later) && later.status == Running
    ensures LeasesOk(leases, items[i := later], acts, tasks[i := Queued])
  {
    var rows := items[i := later];
    assert i !in tasks;
    assert forall k :: k in items ==> ItemKey(rows[k]) == ItemKey(items[k]) && (Unfinished(rows[k]) <==> Unfinished(items[k]));
    forall k | k in leases ensures HolderOk(k, leases[k], rows, acts, tasks[i := Queued]) {
      assert HolderOk(k, leases[k], items, acts, tasks);
    }
    forall k | k in rows && (Unfinished(rows[k]) || Settling(tasks, k)) ensures HoldsLease(leases, rows, k) {
      assert HoldsLease(leases, items, k);
    }
  }

  lemma ClaimTasks(env: Env, items: map<int, Item>, workers: map<int, Worker>, tasks: map<int, TaskPc>, i: int, later: Item)
    requires TasksOk(items, workers, tasks) && BusyOk(env, items, tasks)
    requires i in items && items[i].status == Pending && SameWork(items[i], later) && later.status == Running
    requires items[i].jobId in workers && workers[items[i].jobId].phase == Claiming
    ensures TasksOk(items[i := later], workers, tasks[i := Queued])
    ensures BusyOk(env, items[i := later], tasks[i := Queued])
  {
    var laterItems, laterTasks := items[i := later], tasks[i := Queued];
    forall j ensures BusyWithin(env.concurrency, laterItems, laterTasks, j) {
      assert BusyWithin(env.concurrency, items, tasks, j);
      assert BusyTasks(laterItems, laterTasks, j) == BusyTasks(items, tasks, j);
    }
  }

  lemma BeginStep(env: Env, s: State, i: int)
    requires Inv(env, s) && s.live.Up?
    ensures Inv(env, DoBegin(env, s, i))
  {
    hide Stored, WorkersOk, ActsOk, PrepsOk;
    if DoBegin(env, s, i) != s {
      var tasks := s.live.tasks[i := Generating];
      assert TasksOk(s.db.items.rows, s.live.workers, tasks) by { hide LeasesOk, BusyOk; }
      assert LeasesOk(s.db.leases.rows, s.db.items.rows, s.live.acts, tasks) by {
        hide TasksOk, BusyOk;
        BeginLeases(s.db.leases.rows, s.db.items.rows, s.live.acts, s.live.tasks, i);
      }
      assert BusyOk(env, s.db.items.rows, tasks) by {
        hide TasksOk, LeasesOk;
        BeginBusy(env, s.db.items.rows, s.live.tasks, i);
      }
    }
  }

  lemma BeginLeases(leases: map<Key, Lease>, items: map<int, Item>, acts: map<int, Activity>, tasks: map<int, TaskPc>, i: int)
    requires LeasesOk(leases, items, acts, tasks) && i in tasks && tasks[i] == Queued
    ensures LeasesOk(leases, items, acts, tasks[i := Generating])
  {
    hide ItemKey, Unfinished;
    assert forall k :: Settling(tasks[i := Generating], k) <==> Settling(tasks, k);
    forall k | k in leases ensures HolderOk(k, leases[k], items, acts, tasks[i := Generating]) {
      assert HolderOk(k, leases[k], items, acts, tasks);
    }
  }

  lemma BeginBusy(env: Env, items: map<int, Item>, tasks: map<int, TaskPc>, i: int)
    requires BusyOk(env, items, tasks) && i in tasks && i in items && tasks[i] == Queued
    requires |BusyTasks(items, tasks, items[i].jobId)| < env.concurrency
    ensures BusyOk(env, items, tasks[i := Generating])
  {
    var laterTasks := tasks[i := Generating];
    forall j ensures BusyWithin(env.concurrency, items, laterTasks, j) {
      assert BusyWithin(env.concurrency, items, tasks, j);
      var before, after := BusyTasks(items, tasks, j), BusyTasks(items, laterTasks, j);
      if j == items[i].jobId {
        assert after == before + {i};
      } else {
        assert after == before;
      }
    }
  }

  // ------------------------------------------------------------------ settling an item

  /** The item task's own bookkeeping when its item stops being unfinished: the lease stays until it
      is freed. */
  lemma SettleLeases(leases: map<Key, Lease>, items: map<int, Item>, acts: map<int, Activity>, tasks: map<int, TaskPc>, i: int, later: Item)
    requires LeasesOk(leases, items, acts, tasks)
    requires i in items && Unfinished(items[i]) && SameWork(items[i], later)
    ensures LeasesOk(leases, items[i := later], acts, tasks[i := Settled])
  {
    var rows := items[i := later];
    assert forall k :: k in items ==> ItemKey(rows[k]) == ItemKey(items[k]);
    hide ItemKey;
    forall k | k in leases ensures HolderOk(k, leases[k], rows, acts, tasks[i := Settled]) {
      assert HolderOk(k, leases[k], items, acts, tasks);
    }
    forall k | k in rows && (Unfinished(rows[k]) || Settling(tasks[i := Settled], k)) ensures HoldsLease(leases, rows, k) {
      assert k == i || (Unfinished(items[k]) || Settling(tasks, k));
      assert HoldsLease(leases, items, k);
    }
    forall k | Settling(tasks, k) ensures k in rows {
      assert HoldsLease(leases, items, k);
    }
  }

  lemma SettleTasks(env: Env, items: map<int, Item>, workers: map<int, Worker>, tasks: map<int, TaskPc>, i: int, later: Item)
    requires TasksOk(items, workers, tasks) && BusyOk(env, items, tasks)
    requires i in items && i in tasks && tasks[i] == Generating && SameWork(items[i], later)
    requires later.status == Ok || later.status == Failed
    ensures TasksOk(items[i := later], workers, tasks[i := Settled])
    ensures BusyOk(env, items[i := later], tasks[i := Settled])
  {
    var laterItems, laterTasks := items[i := later], tasks[i := Settled];
    forall j ensures BusyWithin(env.concurrency, laterItems, laterTasks, j) {
      assert BusyWithin(env.concurrency, items, tasks, j);
      assert BusyTasks(laterItems, laterTasks, j) == BusyTasks(items, tasks, j);
    }
  }

  lemma FailStep(env: Env, s: State, i: int, error: string)
    requires Inv(env, s) && s.live.Up? && i in s.live.tasks && s.live.tasks[i] == Generating && i in s.db.items.rows
    ensures Inv(env, s.(db := FailItem(s.db, i, error), live := s.live.(tasks := s.live.tasks[i := Settled])))
  {
    hide EntriesValid, PromptsValid, ResultsValid, JobsOk, OneRunning, BaselinesOk, TargetsDistinct, HistoryOrdered, HistoryOk, ChatOk;
    hide LeasesOk, WorkersOk, ActsOk, PrepsOk, BusyOk, LeaseTable.Valid, ItemGood, ItemsOk;
    var later := FailItem(s.db, i, error).items.rows[i];
    assert s.db.items.rows[i].status == Running;
    hide TasksOk;
    ItemChanges(env, s.db.entries.rows, s.db.prompts.rows, s.db.jobs.rows, s.db.items.rows, i, later);
    InFlightChanges(s.db.jobs.rows, s.db.items.rows, i, later, s.db.commentary, s.db.reports);
    HistoryChanges(s.db.jobs.rows, s.db.items, i, later, s.history);
    SettleLeases(s.db.leases.rows, s.db.items.rows, s.live.acts, s.live.tasks, i, later);
    SettleTasks(env, s.db.items.rows, s.live.workers, s.live.tasks, i, later);
  }

  // ------------------------------------------------------------------ completing an item

  lemma {:induction false} HighestAfterPrune(rows: map<int, ResultRow>, entryId: Option<int>, keep: int, other: Option<int>, bound: int)
    requires entryId != other
    ensures Highest(PruneOthers(rows, entryId, keep), other, bound) == Highest(rows, other, bound)
  {
    if bound > 0 {
      HighestAfterPrune(rows, entryId, keep, other, bound - 1);
    }
  }

  /** The result table after a completion: the new row is its target's current result, no other
      target's current result moved. */
  lemma CompletionResults(db: Db, item: Item, targetType: TargetType, row: ResultRow, other: Option<int>)
    requires ResultsValid(db.commentary, db.reports) && row.ok
    requires targetType == AggregateReport ==> row.entryId == None
    ensures ResultsValid(CompletedTable(db, EntryCommentary, targetType, row), CompletedTable(db, AggregateReport, targetType, row))
    ensures Current(CompletedTable(db, targetType, targetType, row), row.entryId) == Some(ResultTable(db, targetType).next)
    ensures row.entryId != other ==>
      Current(CompletedTable(db, targetType, targetType, row), other) == Current(ResultTable(db, targetType), other)
  {
    var results := ResultTable(db, targetType);
    CurrentAfterInsert(results, row, other);
    if targetType == EntryCommentary && row.entryId != other {
      HighestAfterPrune(results.Insert(row).rows, row.entryId, results.next, other, results.next + 1);
    }
  }

  /** Result table `which` after item work of `targetType` inserted `row`. */
  function CompletedTable(db: Db, which: TargetType, targetType: TargetType, row: ResultRow): Table<ResultRow> {
    var grown := ResultTable(db, which).Insert(row);
    if which != targetType then ResultTable(db, which)
    else if which == EntryCommentary then Table(PruneOthers(grown.rows, row.entryId, ResultTable(db, which).next), grown.next)
    else grown
  }

  lemma CompletionShape(db: Db, i: int, targetType: TargetType, row: ResultRow)
    requires i in db.items.rows && CompleteItem(db, i, targetType, row).Some?
    ensures CompleteItem(db, i, targetType, row).value == db.(
      items := db.items.Set(i, db.items.rows[i].(status := Ok, resultId := Some(ResultTable(db, targetType).next))),
      commentary := CompletedTable(db, EntryCommentary, targetType, row),
      reports := CompletedTable(db, AggregateReport, targetType, row))
  {
  }

  /** Every other item in flight keeps its baseline: its target is a different one. */
  lemma CompletionBaselines(db: Db, i: int, row: ResultRow)
    requires ResultsValid(db.commentary, db.reports)
    requires BaselinesOk(db.jobs.rows, db.items.rows, db.commentary, db.reports) && TargetsDistinct(db.jobs.rows, db.items.rows)
    requires InFlight(db.jobs.rows, db.items.rows, i) && row.ok
    requires row.entryId == if db.items.rows[i].targetType == EntryCommentary then db.items.rows[i].entryId else None
    requires db.items.rows[i].targetType == EntryCommentary ==> db.items.rows[i].entryId.Some?
    requires forall k :: InFlight(db.jobs.rows, db.items.rows, k) && db.items.rows[k].targetType == EntryCommentary ==> db.items.rows[k].entryId.Some?
    ensures var tt := db.items.rows[i].targetType;
      var later := db.items.rows[i].(status := Ok, resultId := Some(ResultTable(db, tt).next));
      && BaselinesOk(db.jobs.rows, db.items.rows[i := later], CompletedTable(db, EntryCommentary, tt, row), CompletedTable(db, AggregateReport, tt, row))
      && TargetsDistinct(db.jobs.rows, db.items.rows[i := later])
  {
    hide Current, CompletedTable, ResultsValid;
    var tt := db.items.rows[i].targetType;
    var later := db.items.rows[i].(status := Ok, resultId := Some(ResultTable(db, tt).next));
    var rows := db.items.rows[i := later];
    forall k | InFlight(db.jobs.rows, rows, k)
      ensures InFlight(db.jobs.rows, db.items.rows, k) && rows[k] == db.items.rows[k]
      ensures rows[k].baseline == Current(CompletedTable(db, rows[k].targetType, tt, row), rows[k].entryId)
    {
      assert ItemKey(db.items.rows[k]) != ItemKey(db.items.rows[i]);
      CompletionResults(db, db.items.rows[i], tt, row, rows[k].entryId);
      OtherTable(db, rows[k].targetType, tt, row);
    }
  }

  lemma OtherTable(db: Db, which: TargetType, targetType: TargetType, row: ResultRow)
    ensures which != targetType ==> CompletedTable(db, which, targetType, row) == ResultTable(db, which)
  {
  }

  /** The new row is the item's one contribution. */
  lemma CompletionHistory(jobs: map<int, Job>, items: Table<Item>, i: int, resultId: int, history: seq<Produced>)
    requires HistoryOk(jobs, items, history) && Backed(jobs, items.rows, i) && items.rows[i].status != Ok
    requires items.Valid()
    ensures HistoryOk(jobs, items.Set(i, items.rows[i].(status := Ok, resultId := Some(resultId))),
                      history + [Produced(items.rows[i].targetType, resultId, ForItem(i))])
  {
    var p := Produced(items.rows[i].targetType, resultId, ForItem(i));
    var after := items.Set(i, items.rows[i].(status := Ok, resultId := Some(resultId)));
    forall k ensures Contributions(history + [p], k) == Contributions(history, k) + if k == i then 1 else 0 {
      ContributionsAfter(history, p, k);
    }
    hide Contributions;
    assert p in history + [p] by {
      assert (history + [p])[|history|] == p;
    }
    forall k | Backed(jobs, after.rows, k)
      ensures if after.rows[k].status == Ok then RecordedOnce(after.rows[k], history + [p], k) else Contributions(history + [p], k) == 0
    {
      assert Backed(jobs, items.rows, k);
    }
  }

  /** What the invariant says about the item of a generating task. */
  lemma GeneratingItem(env: Env, s: State, i: int)
    requires Inv(env, s) && s.live.Up? && i in s.live.tasks && (s.live.tasks[i] == Generating || s.live.tasks[i] == Queued)
    ensures i in s.db.items.rows && s.db.items.rows[i].status == Running
    ensures InFlight(s.db.jobs.rows, s.db.items.rows, i)
    ensures s.db.items.rows[i].jobId in s.live.workers
    ensures s.db.jobs.rows[s.db.items.rows[i].jobId].promptId in s.db.prompts.rows
    ensures ItemGood(env, s.db.entries.rows, s.db.prompts.rows[s.db.jobs.rows[s.db.items.rows[i].jobId].promptId],
                     s.db.jobs.rows[s.db.items.rows[i].jobId].snapshot, s.db.items.rows[i])
  {
    hide EntriesValid, PromptsValid, ResultsValid, JobsOk, OneRunning, BaselinesOk, TargetsDistinct, HistoryOrdered, HistoryOk, ChatOk;
    hide LeasesOk, ActsOk, PrepsOk, BusyOk, LeaseTable.Valid, ItemGood, Table.Valid;
  }

  lemma InFlightProper(env: Env, entries: Entries, prompts: map<int, Prompt>, jobs: map<int, Job>, items: map<int, Item>, k: int)
    requires ItemsOk(env, entries, prompts, jobs, items) && InFlight(jobs, items, k)
    ensures items[k].targetType == EntryCommentary ==> items[k].entryId.Some?
    ensures items[k].targetType == AggregateReport ==> items[k].entryId.None?
  {
    hide Matches;
  }

  lemma CompleteStep(env: Env, s: State, i: int, row: ResultRow)
    requires Inv(env, s) && s.live.Up? && i in s.live.tasks && s.live.tasks[i] == Generating && i in s.db.items.rows
    requires row.ok && row.entryId == if s.db.items.rows[i].targetType == EntryCommentary then s.db.items.rows[i].entryId else None
    requires CompleteItem(s.db, i, s.db.items.rows[i].targetType, row).Some?
    ensures Inv(env, s.(db := CompleteItem(s.db, i, s.db.items.rows[i].targetType, row).value,
                        live := s.live.(tasks := s.live.tasks[i := Settled]),
                        history := s.history + [Produced(s.db.items.rows[i].targetType, ResultTable(s.db, s.db.items.rows[i].targetType).next, ForItem(i))]))
  {
    hide EntriesValid, PromptsValid, ResultsValid, JobsOk, OneRunning, BaselinesOk, TargetsDistinct, HistoryOrdered, HistoryOk, ChatOk;
    hide LeasesOk, WorkersOk, ActsOk, PrepsOk, BusyOk, LeaseTable.Valid, ItemGood, ItemsOk, TasksOk, CompletedTable;
    var item := s.db.items.rows[i];
    var resultId := ResultTable(s.db, item.targetType).next;
    var later := item.(status := Ok, resultId := Some(resultId));
    GeneratingItem(env, s, i);
    CompletionShape(s.db, i, item.targetType, row);
    hide CompleteItem;
    forall k | InFlight(s.db.jobs.rows, s.db.items.rows, k)
      ensures s.db.items.rows[k].targetType == EntryCommentary ==> s.db.items.rows[k].entryId.Some?
    {
      InFlightProper(env, s.db.entries.rows, s.db.prompts.rows, s.db.jobs.rows, s.db.items.rows, k);
    }
    ItemChanges(env, s.db.entries.rows, s.db.prompts.rows, s.db.jobs.rows, s.db.items.rows, i, later);
    CompletionBaselines(s.db, i, row);
    CompletionResults(s.db, item, item.targetType, row, None);
    CompletionHistory(s.db.jobs.rows, s.db.items, i, resultId, s.history);
    HistoryGrows(s.history, Produced(item.targetType, resultId, ForItem(i)), s.db.commentary.next, s.db.reports.next);
    CompletedNext(s.db, EntryCommentary, item.targetType, row);
    CompletedNext(s.db, AggregateReport, item.targetType, row);
    SettleLeases(s.db.leases.rows, s.db.items.rows, s.live.acts, s.live.tasks, i, later);
    SettleTasks(env, s.db.items.rows, s.live.workers, s.live.tasks, i, later);
  }

  lemma CompletedNext(db: Db, which: TargetType, targetType: TargetType, row: ResultRow)
    ensures CompletedTable(db, which, targetType, row).next == ResultTable(db, which).next + if which == targetType then 1 else 0
  {
  }

  lemma SettleStep(env: Env, s: State, i: int, generated: Option<string>)
    requires Inv(env, s) && s.live.Up?
    ensures Inv(env, DoSettle(env, s, i, generated))
  {
    hide Inv, StillMatches, CompleteItem;
    if i in s.live.tasks && s.live.tasks[i] == Generating && i in s.db.items.rows {
      FailStep(env, s, i, "");
      if generated.Some? && s.db.items.rows[i].jobId in s.db.jobs.rows {
        var item := s.db.items.rows[i];
        var row := ResultRow(if item.targetType == EntryCommentary then item.entryId else None,
                             s.db.jobs.rows[item.jobId].promptId, true, generated.value);
        if CompleteItem(s.db, i, item.targetType, row).Some? {
          CompleteStep(env, s, i, row);
        }
      }
    }
  }

  // ------------------------------------------------------------------ freeing a lease, finishing a job

  lemma FreeLeases(leases: map<Key, Lease>, items: map<int, Item>, acts: map<int, Activity>, workers: map<int, Worker>, tasks: map<int, TaskPc>, i: int)
    requires LeasesOk(leases, items, acts, tasks) && TasksOk(items, workers, tasks)
    requires i in tasks && tasks[i] == Settled && i in items
    ensures ItemKey(items[i]).Some?
    ensures LeasesOk(leases - {ItemKey(items[i]).value}, items, acts, tasks[i := Finished])
  {
    assert HoldsLease(leases, items, i) by { assert Settling(tasks, i); }
    var key := ItemKey(items[i]).value;
    assert !Unfinished(items[i]);
    hide ItemKey, Unfinished, TasksOk;
    forall k | k in leases && k != key ensures HolderOk(k, leases[k], items, acts, tasks[i := Finished]) {
      assert HolderOk(k, leases[k], items, acts, tasks);
    }
    forall k | k in items && (Unfinished(items[k]) || Settling(tasks[i := Finished], k)) ensures HoldsLease(leases - {key}, items, k) {
      assert Unfinished(items[k]) || Settling(tasks, k);
      assert HoldsLease(leases, items, k);
    }
    forall k | Settling(tasks[i := Finished], k) ensures k in items {
      assert Settling(tasks, k) && HoldsLease(leases, items, k);
    }
    forall a | a in acts ensures acts[a].key != key {
      assert leases[acts[a].key].holder == ForActivity(a);
    }
  }

  lemma FreeTasks(env: Env, items: map<int, Item>, workers: map<int, Worker>, tasks: map<int, TaskPc>, i: int)
    requires TasksOk(items, workers, tasks) && BusyOk(env, items, tasks)
    requires i in tasks && tasks[i] == Settled && i in items
    ensures TasksOk(items, workers, tasks[i := Finished]) && BusyOk(env, items, tasks[i := Finished])
  {
    var laterTasks := tasks[i := Finished];
    forall j ensures BusyWithin(env.concurrency, items, laterTasks, j) {
      assert BusyWithin(env.concurrency, items, tasks, j);
      SubsetCard(BusyTasks(items, laterTasks, j), BusyTasks(items, tasks, j));
    }
  }

  lemma SubsetCard(a: set<int>, b: set<int>)
    requires a <= b
    ensures |a| <= |b|
  {
    assert b == a + (b - a);
    assert |b| == |a| + |b - a|;
  }

  lemma FreeStep(env: Env, s: State, i: int)
    requires Inv(env, s) && s.live.Up?
    ensures Inv(env, DoFree(s, i))
  {
    hide EntriesValid, PromptsValid, ResultsValid, JobsOk, OneRunning, ItemsOk, BaselinesOk, TargetsDistinct, HistoryOrdered, HistoryOk, ChatOk;
    hide LeasesOk, TasksOk, WorkersOk, ActsOk, PrepsOk, BusyOk, ItemKey;
    if i in s.live.tasks && s.live.tasks[i] == Settled && i in s.db.items.rows {
      FreeLeases(s.db.leases.rows, s.db.items.rows, s.live.acts, s.live.workers, s.live.tasks, i);
      FreeTasks(env, s.db.items.rows, s.live.workers, s.live.tasks, i);
    }
  }

  /** When a worker has claimed everything and every task is through, nothing of its job is left. */
  lemma NothingLeft(s: State, job: int)
    requires s.live.Up? && TasksOk(s.db.items.rows, s.live.workers, s.live.tasks)
    requires job in s.live.workers && s.live.workers[job].phase == Draining && AllFinished(s, job)
    ensures !HasUnfinished(s.db.items, job)
  {
  }

  /** A job without unfinished items becomes done. */
  lemma DoneKeepsWork(env: Env, db: Db, job: int, history: seq<Produced>)
    requires job in db.jobs.rows && db.jobs.Valid() && !HasUnfinished(db.items, job)
    requires JobsOk(db.entries.rows, db.prompts.rows, db.jobs.rows) && OneRunning(db.jobs.rows)
    requires ItemsOk(env, db.entries.rows, db.prompts.rows, db.jobs.rows, db.items.rows)
    requires BaselinesOk(db.jobs.rows, db.items.rows, db.commentary, db.reports) && TargetsDistinct(db.jobs.rows, db.items.rows)
    requires HistoryOk(db.jobs.rows, db.items, history)
    ensures var jobs := FinalizeJob(db, job).jobs;
      && jobs.Valid() && jobs == db.jobs.Set(job, db.jobs.rows[job].(status := JobDone))
      && JobsOk(db.entries.rows, db.prompts.rows, jobs.rows) && OneRunning(jobs.rows)
      && ItemsOk(env, db.entries.rows, db.prompts.rows, jobs.rows, db.items.rows)
      && BaselinesOk(jobs.rows, db.items.rows, db.commentary, db.reports) && TargetsDistinct(jobs.rows, db.items.rows)
      && HistoryOk(jobs.rows, db.items, history)
  {
    hide SortedIds, ItemGood, Current, RecordedOnce, Contributions, ItemKey;
    var jobs := FinalizeJob(db, job).jobs;
    assert forall i :: Backed(jobs.rows, db.items.rows, i) <==> Backed(db.jobs.rows, db.items.rows, i);
  }

  lemma FinishLive(env: Env, s: State, job: int)
    requires s.live.Up? && job in s.live.workers && AllFinished(s, job) && !HasUnfinished(s.db.items, job)
    requires LeasesOk(s.db.leases.rows, s.db.items.rows, s.live.acts, s.live.tasks)
    requires TasksOk(s.db.items.rows, s.live.workers, s.live.tasks) && BusyOk(env, s.db.items.rows, s.live.tasks)
    ensures LeasesOk(s.db.leases.rows, s.db.items.rows, s.live.acts, StopWorker(s, job).tasks)
    ensures TasksOk(s.db.items.rows, s.live.workers - {job}, StopWorker(s, job).tasks)
    ensures BusyOk(env, s.db.items.rows, StopWorker(s, job).tasks)
  {
    hide ItemKey;
    var tasks := StopWorker(s, job).tasks;
    assert forall i :: Settling(tasks, i) <==> Settling(s.live.tasks, i) by {
      hide HoldsLease, HolderOk, Unfinished;
    }
    assert LeasesOk(s.db.leases.rows, s.db.items.rows, s.live.acts, tasks) by {
      hide Settling, Unfinished;
      forall k | k in s.db.leases.rows ensures HolderOk(k, s.db.leases.rows[k], s.db.items.rows, s.live.acts, tasks) {
        assert HolderOk(k, s.db.leases.rows[k], s.db.items.rows, s.live.acts, s.live.tasks);
      }
    }
    forall j ensures BusyWithin(env.concurrency, s.db.items.rows, tasks, j) {
      assert BusyWithin(env.concurrency, s.db.items.rows, s.live.tasks, j);
      SubsetCard(BusyTasks(s.db.items.rows, tasks, j), BusyTasks(s.db.items.rows, s.live.tasks, j));
    }
  }

  lemma FinishStep(env: Env, s: State, job: int)
    requires Inv(env, s) && s.live.Up?
    ensures Inv(env, DoFinish(s, job))
  {
    hide EntriesValid, PromptsValid, ResultsValid, JobsOk, OneRunning, ItemsOk, BaselinesOk, TargetsDistinct, HistoryOrdered, HistoryOk, ChatOk;
    hide LeasesOk, TasksOk, ActsOk, PrepsOk, BusyOk, LeaseTable.Valid, HasUnfinished, AllFinished;
    var after := DoFinish(s, job);
    if job in s.live.workers && job in s.db.jobs.rows && s.live.workers[job].phase == Draining && AllFinished(s, job) {
      NothingLeft(s, job);
      DoneKeepsWork(env, s.db, job, s.history);
      FinishLive(env, s, job);
    }
  }

  // ------------------------------------------------------------------ retrying an item

  /** While no job runs there is no worker and no task. */
  lemma NoWorkers(jobs: map<int, Job>, items: map<int, Item>, workers: map<int, Worker>, tasks: map<int, TaskPc>)
    requires WorkersOk(jobs, workers) && TasksOk(items, workers, tasks)
    requires forall j :: j in jobs ==> jobs[j].status != JobRunning
    ensures workers == map[] && tasks == map[]
  {
    forall j ensures j !in workers {
    }
    forall i ensures i !in tasks {
    }
  }

  /** What a granted retry changed, and what it had checked. */
  ghost predicate Retried(db: Db, later: Db, i: int) {
    && i in db.items.rows && db.items.rows[i].status == Failed && ItemKey(db.items.rows[i]).Some?
    && Backed(db.jobs.rows, db.items.rows, i) && db.jobs.rows[db.items.rows[i].jobId].status == JobDone
    && (forall j :: j in db.jobs.rows ==> db.jobs.rows[j].status != JobRunning)
    && db.items.rows[i].baseline == CurrentResult(db, db.items.rows[i].targetType, db.items.rows[i].entryId)
    && ItemKey(db.items.rows[i]).value !in db.leases.rows
    && later == db.(leases := db.leases.Add(ItemKey(db.items.rows[i]).value, Background, ForItem(i)),
                    items := db.items.Set(i, db.items.rows[i].(status := Pending, error := None)),
                    jobs := db.jobs.Set(db.items.rows[i].jobId, db.jobs.rows[db.items.rows[i].jobId].(status := JobRunning)))
    && !db.locked
  }

  lemma RetryFacts(db: Db, i: int, expectedJob: Option<int>)
    ensures Retry(db, i, expectedJob).1.Success? ==>
      Retried(db, Retry(db, i, expectedJob).0, i) && Retry(db, i, expectedJob).1.value == db.items.rows[i].jobId
    ensures Retry(db, i, expectedJob).1.Failure? ==> Retry(db, i, expectedJob).0 == db
  {
    hide NewerItem, Current;
  }

  lemma RetriedItems(env: Env, db: Db, later: Db, i: int)
    requires Retried(db, later, i) && db.jobs.Valid() && db.items.Valid() && db.leases.Valid()
    requires JobsOk(db.entries.rows, db.prompts.rows, db.jobs.rows)
    requires ItemsOk(env, db.entries.rows, db.prompts.rows, db.jobs.rows, db.items.rows)
    ensures later.jobs.Valid() && later.items.Valid() && later.leases.Valid()
    ensures JobsOk(db.entries.rows, db.prompts.rows, later.jobs.rows) && OneRunning(later.jobs.rows)
    ensures ItemsOk(env, db.entries.rows, db.prompts.rows, later.jobs.rows, later.items.rows)
  {
    hide SortedIds, ItemGood, Current, ItemKey;
    var job := db.items.rows[i].jobId;
    assert ItemsOk(env, db.entries.rows, db.prompts.rows, later.jobs.rows, db.items.rows);
    ItemChanges(env, db.entries.rows, db.prompts.rows, later.jobs.rows, db.items.rows, i, later.items.rows[i]);
  }

  /** The retried item is alone in flight, on the baseline it was enqueued with. */
  lemma RetriedInFlight(env: Env, db: Db, later: Db, i: int, history: seq<Produced>)
    requires Retried(db, later, i)
    requires ItemsOk(env, db.entries.rows, db.prompts.rows, db.jobs.rows, db.items.rows)
    requires HistoryOk(db.jobs.rows, db.items, history)
    ensures BaselinesOk(later.jobs.rows, later.items.rows, later.commentary, later.reports)
    ensures TargetsDistinct(later.jobs.rows, later.items.rows)
    ensures HistoryOk(later.jobs.rows, later.items, history)
  {
    hide ItemGood, Current, RecordedOnce, Contributions, ItemKey;
    NothingUnfinished(env, db.entries.rows, db.prompts.rows, db.jobs.rows, db.items.rows);
    assert forall k :: InFlight(later.jobs.rows, later.items.rows, k) ==> k == i;
    assert forall k :: Backed(later.jobs.rows, later.items.rows, k) ==> Backed(db.jobs.rows, db.items.rows, k);
  }

  lemma RetriedLeases(db: Db, later: Db, i: int, acts: map<int, Activity>)
    requires Retried(db, later, i)
    requires LeasesOk(db.leases.rows, db.items.rows, acts, map[])
    ensures LeasesOk(later.leases.rows, later.items.rows, acts, map[])
  {
    var key := ItemKey(db.items.rows[i]).value;
    RetriedKey(db.items.rows[i], later.items.rows[i]) by { hide ItemKey, Current; }
    hide ItemKey, Current;
    assert HoldersOk(later.leases.rows, later.items.rows, acts, map[]) by {
      hide ItemsHold, ActsHold, HoldsLease;
      forall k | k in later.leases.rows ensures HolderOk(k, later.leases.rows[k], later.items.rows, acts, map[]) {
        if k != key {
          assert HolderOk(k, db.leases.rows[k], db.items.rows, acts, map[]);
        }
      }
    }
    assert ActsHold(later.leases.rows, acts) by {
      hide ItemsHold, HoldersOk, HoldsLease, HolderOk;
    }
    assert ItemsHold(later.leases.rows, later.items.rows, map[]) by {
      hide ActsHold, HoldersOk, HolderOk;
      forall k | k in later.items.rows && Unfinished(later.items.rows[k]) ensures HoldsLease(later.leases.rows, later.items.rows, k) {
        if k != i {
          assert HoldsLease(db.leases.rows, db.items.rows, k);
        }
      }
    }
  }

  lemma RetriedKey(item: Item, later: Item)
    requires SameWork(item, later)
    ensures ItemKey(later) == ItemKey(item)
  {
  }

  lemma RetryStep(env: Env, s: State, i: int, expectedJob: Option<int>)
    requires Inv(env, s) && s.live.Up?
    ensures Inv(env, DoRetry(s, i, expectedJob))
  {
    hide EntriesValid, PromptsValid, ResultsValid, JobsOk, OneRunning, ItemsOk, BaselinesOk, TargetsDistinct, HistoryOrdered, HistoryOk, ChatOk;
    hide LeasesOk, ActsOk, PrepsOk, LeaseTable.Valid, Retry, Current, Table.Valid, ItemKey;
    RetryFacts(s.db, i, expectedJob);
    var (later, outcome) := Retry(s.db, i, expectedJob);
    if outcome.Success? {
      NoWorkers(s.db.jobs.rows, s.db.items.rows, s.live.workers, s.live.tasks);
      RetriedItems(env, s.db, later, i);
      RetriedInFlight(env, s.db, later, i, s.history);
      RetriedLeases(s.db, later, i, s.live.acts);
      RetriedTasks(env, s.db, later, i, s.live.workers);
    }
  }

  lemma RetriedTasks(env: Env, db: Db, later: Db, i: int, workers: map<int, Worker>)
    requires Retried(db, later, i) && WorkersOk(db.jobs.rows, workers) && workers == map[]
    requires TasksOk(db.items.rows, workers, map[])
    ensures TasksOk(later.items.rows, workers[db.items.rows[i].jobId := Worker(false, Scheduled, false)], map[])
    ensures WorkersOk(later.jobs.rows, workers[db.items.rows[i].jobId := Worker(false, Scheduled, false)])
    ensures BusyOk(env, later.items.rows, map[])
  {
    hide ItemKey, Current;
    forall j ensures BusyWithin(env.concurrency, later.items.rows, map[], j) {
      assert BusyTasks(later.items.rows, map[], j) == {};
    }
  }
}
