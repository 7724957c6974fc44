/** The inductive invariant of the generation-safety protocol. */
module SafetyInvariant {
  import opened Tables
  import opened TargetKeys
  import opened Archive
  import opened Store
  import opened GenerationSafety

  // ------------------------------------------------------------------ stored state, crash or no crash

  ghost predicate EntriesValid(entries: Table<Entry>) {
    entries.Valid() && KeyedById(entries.rows)
  }

  ghost predicate PromptsValid(prompts: Table<Prompt>, active: Option<int>) {
    prompts.Valid() && (active.Some? ==> active.value in prompts.rows)
  }

  ghost predicate ResultsValid(commentary: Table<ResultRow>, reports: Table<ResultRow>) {
    && commentary.Valid() && reports.Valid()
    && forall k :: k in reports.rows ==> reports.rows[k].entryId == None
  }

  ghost predicate JobsOk(entries: Entries, prompts: map<int, Prompt>, jobs: map<int, Job>) {
    forall j :: j in jobs ==>
      && jobs[j].promptId in prompts
      && (jobs[j].snapshotCount.Some? ==>
            jobs[j].snapshotCount.value == |jobs[j].snapshot| && SortedIds(entries, jobs[j].snapshot))
  }

  /** `ux_regen_job_one_running`. */
  ghost predicate OneRunning(jobs: map<int, Job>) {
    forall j, k :: j in jobs && k in jobs && jobs[j].status == JobRunning && jobs[k].status == JobRunning ==> j == k
  }

  /** An item of a snapshot-backed job: a proper target inside the job's own snapshot, whose rebuilt
      request still has the stored identity. */
  ghost predicate ItemGood(env: Env, entries: Entries, prompt: Prompt, snapshot: seq<int>, item: Item) {
    && PreparedOf(item).Some? && PreparedOf(item).value.Valid()
    && (item.targetType == EntryCommentary ==> item.entryId.value in snapshot && item.entryId.value in entries)
    && Matches(env, entries, prompt, snapshot, item)
  }

  ghost predicate ItemsOk(env: Env, entries: Entries, prompts: map<int, Prompt>, jobs: map<int, Job>, items: map<int, Item>) {
    forall i :: i in items ==>
      && items[i].jobId in jobs
      && (Unfinished(items[i]) ==> jobs[items[i].jobId].status == JobRunning)
      && (jobs[items[i].jobId].snapshotCount.Some? ==>
            && jobs[items[i].jobId].promptId in prompts
            && ItemGood(env, entries, prompts[jobs[items[i].jobId].promptId], jobs[items[i].jobId].snapshot, items[i]))
  }

  /** Item i belongs to a job with a stored snapshot. */
  predicate Backed(jobs: map<int, Job>, items: map<int, Item>, i: int) {
    i in items && items[i].jobId in jobs && jobs[items[i].jobId].snapshotCount.Some?
  }

  predicate InFlight(jobs: map<int, Job>, items: map<int, Item>, i: int) {
    Backed(jobs, items, i) && Unfinished(items[i])
  }

  ghost predicate BaselinesOk(jobs: map<int, Job>, items: map<int, Item>, commentary: Table<ResultRow>, reports: Table<ResultRow>) {
    forall i :: InFlight(jobs, items, i) ==>
      items[i].baseline == Current(if items[i].targetType == EntryCommentary then commentary else reports, items[i].entryId)
  }

  ghost predicate TargetsDistinct(jobs: map<int, Job>, items: map<int, Item>) {
    forall i, k :: InFlight(jobs, items, i) && InFlight(jobs, items, k) && i != k ==> ItemKey(items[i]) != ItemKey(items[k])
  }

  function Contributions(history: seq<Produced>, item: int): nat {
    if history == [] then 0
    else Contributions(history[..|history| - 1], item) + if history[|history| - 1].origin == ForItem(item) then 1 else 0
  }

  /** Result ids grow within each result table, below the tables' next ids. */
  ghost predicate HistoryOrdered(history: seq<Produced>, nextCommentary: int, nextReport: int) {
    && (forall n :: 0 <= n < |history| ==>
          history[n].resultId < (if history[n].targetType == EntryCommentary then nextCommentary else nextReport))
    && (forall m, n :: 0 <= m < n < |history| && history[m].targetType == history[n].targetType ==>
          history[m].resultId < history[n].resultId)
  }

  ghost predicate HistoryOk(jobs: map<int, Job>, items: Table<Item>, history: seq<Produced>) {
    && (forall i :: i >= items.next ==> Contributions(history, i) == 0)
    && (forall i :: Backed(jobs, items.rows, i) ==>
          if items.rows[i].status == Ok then RecordedOnce(items.rows[i], history, i) else Contributions(history, i) == 0)
  }

  ghost predicate RecordedOnce(item: Item, history: seq<Produced>, i: int) {
    && Contributions(history, i) == 1
    && item.resultId.Some?
    && Produced(item.targetType, item.resultId.value, ForItem(i)) in history
  }

  /** The messages form turns: a user message, and at most one reply to it directly after it,
      written by the same request. */
  ghost predicate TurnsOk(log: seq<Message>) {
    && (forall n :: 0 <= n < |log| && log[n].role == Assistant ==>
          n > 0 && log[n - 1].role == User && log[n - 1].turn == log[n].turn)
    && (forall m, n :: 0 <= m < n < |log| && log[m].turn == log[n].turn ==>
          n == m + 1 && log[m].role == User && log[n].role == Assistant)
  }

  ghost predicate ChatOk(logs: map<Key, seq<Message>>, sessions: map<int, string>, nextAct: int) {
    forall t :: t in logs ==>
      && (t.ConversationKey? ==> t.sessionId in sessions)
      && TurnsOk(logs[t])
      && (forall n :: 0 <= n < |logs[t]| ==> logs[t][n].turn < nextAct)
  }

  ghost predicate Stored(env: Env, db: Db, nextAct: int, history: seq<Produced>) {
    && EntriesValid(db.entries)
    && PromptsValid(db.prompts, db.activePrompt)
    && ResultsValid(db.commentary, db.reports)
    && db.jobs.Valid() && db.items.Valid() && db.sessions.Valid()
    && db.leases.Valid()
    && JobsOk(db.entries.rows, db.prompts.rows, db.jobs.rows)
    && OneRunning(db.jobs.rows)
    && ItemsOk(env, db.entries.rows, db.prompts.rows, db.jobs.rows, db.items.rows)
    && BaselinesOk(db.jobs.rows, db.items.rows, db.commentary, db.reports)
    && TargetsDistinct(db.jobs.rows, db.items.rows)
    && HistoryOrdered(history, db.commentary.next, db.reports.next)
    && HistoryOk(db.jobs.rows, db.items, history)
    && ChatOk(db.logs, db.sessions.rows, nextAct)
  }

  // ------------------------------------------------------------------ a live process

  predicate Settling(tasks: map<int, TaskPc>, i: int) {
    i in tasks && tasks[i] == Settled
  }

  /** Item i's lease is in the table, and it is the row inserted for item i. */
  predicate HoldsLease(leases: map<Key, Lease>, items: map<int, Item>, i: int) {
    && i in items && ItemKey(items[i]).Some?
    && ItemKey(items[i]).value in leases
    && leases[ItemKey(items[i]).value].holder == ForItem(i)
  }

  /** The holder of a lease row still needs it, under that key. */
  predicate HolderOk(k: Key, lease: Lease, items: map<int, Item>, acts: map<int, Activity>, tasks: map<int, TaskPc>) {
    match lease.holder
    case ForItem(i) => i in items && ItemKey(items[i]) == Some(k) && (Unfinished(items[i]) || Settling(tasks, i))
    case ForActivity(a) => a in acts && acts[a].key == k && acts[a].leaseId == lease.id
  }

  ghost predicate HoldersOk(leases: map<Key, Lease>, items: map<int, Item>, acts: map<int, Activity>, tasks: map<int, TaskPc>) {
    forall k :: k in leases ==> HolderOk(k, leases[k], items, acts, tasks)
  }

  ghost predicate ActsHold(leases: map<Key, Lease>, acts: map<int, Activity>) {
    forall a :: a in acts ==>
      && acts[a].key in leases
      && leases[acts[a].key].holder == ForActivity(a)
      && leases[acts[a].key].id == acts[a].leaseId
  }

  ghost predicate ItemsHold(leases: map<Key, Lease>, items: map<int, Item>, tasks: map<int, TaskPc>) {
    && (forall i :: i in items && Unfinished(items[i]) ==> HoldsLease(leases, items, i))
    && (forall i :: Settling(tasks, i) ==> HoldsLease(leases, items, i))
  }

  /** Every lease is accounted for: it is held for an item that still needs it or for a route's
      request, and those hold theirs. */
  ghost predicate LeasesOk(leases: map<Key, Lease>, items: map<int, Item>, acts: map<int, Activity>, tasks: map<int, TaskPc>) {
    && HoldersOk(leases, items, acts, tasks)
    && ActsHold(leases, acts)
    && ItemsHold(leases, items, tasks)
  }

  ghost predicate TasksOk(items: map<int, Item>, workers: map<int, Worker>, tasks: map<int, TaskPc>) {
    && (forall i :: i in tasks ==>
          && i in items && items[i].jobId in workers
          && (workers[items[i].jobId].phase == Claiming || workers[items[i].jobId].phase == Draining)
          && (tasks[i] == Queued || tasks[i] == Generating ==> items[i].status == Running)
          && (tasks[i] == Settled || tasks[i] == Finished ==> items[i].status == Ok || items[i].status == Failed))
    && (forall i :: i in items && items[i].status == Running ==> i in tasks)
    && (forall i :: i in items && items[i].status == Pending && items[i].jobId in workers ==> workers[items[i].jobId].phase != Draining)
  }

  ghost predicate WorkersOk(jobs: map<int, Job>, workers: map<int, Worker>) {
    && (forall j :: j in workers ==> j in jobs)
    && (forall j :: j in jobs ==> (jobs[j].status == JobRunning <==> j in workers))
    && (forall j :: j in workers ==> jobs[j].snapshotCount.Some?)
  }

  ghost predicate ActOk(entries: Entries, prompts: map<int, Prompt>, sessions: map<int, string>, logs: map<Key, seq<Message>>,
                        a: int, act: Activity) {
    match act.kind
    case DirectReport(promptId, _) => act.key == ReportKey && (promptId.Some? ==> promptId.value in prompts)
    case RequestScoped => act.key.RequestKey? && Unheard(logs, a)
    case Admitted => ThreadExists(entries, sessions, act.key) && Unheard(logs, a)
    case Turn(answered) => ThreadExists(entries, sessions, act.key) && (!answered ==> Asking(logs, a, act.key))
  }

  /** Request a has written no message yet. */
  ghost predicate Unheard(logs: map<Key, seq<Message>>, a: int) {
    forall t, n :: t in logs && 0 <= n < |logs[t]| ==> logs[t][n].turn != a
  }

  /** The last message of the thread is request a's question. */
  predicate Asking(logs: map<Key, seq<Message>>, a: int, thread: Key) {
    && thread in logs && |logs[thread]| > 0
    && logs[thread][|logs[thread]| - 1].role == User
    && logs[thread][|logs[thread]| - 1].turn == a
  }

  ghost predicate ActsOk(entries: Entries, prompts: map<int, Prompt>, sessions: map<int, string>, logs: map<Key, seq<Message>>,
                         acts: map<int, Activity>, nextAct: int) {
    forall a :: a in acts ==> a < nextAct && ActOk(entries, prompts, sessions, logs, a, acts[a])
  }

  ghost predicate TargetsMatch(env: Env, entries: Entries, prompt: Prompt, ids: seq<int>, targets: seq<Prepared>) {
    && Known(entries, ids)
    && AllValid(targets)
    && forall n :: 0 <= n < |targets| ==>
         PreparedTarget(env, Resolve(entries, ids), prompt, targets[n].targetType, targets[n].entryId) == Some(targets[n])
  }

  ghost predicate PrepOk(env: Env, entries: Entries, prompts: map<int, Prompt>, prep: Prep) {
    match prep.prompt
    case Existing(id) => id in prompts && TargetsMatch(env, entries, prompts[id], prep.ids, prep.targets)
    case Activate(body, model) => TargetsMatch(env, entries, Prompt(body, model), prep.ids, prep.targets)
  }

  ghost predicate PrepsOk(env: Env, entries: Entries, prompts: map<int, Prompt>, preps: map<int, Prep>) {
    forall p :: p in preps ==> PrepOk(env, entries, prompts, preps[p])
  }

  predicate BusyWithin(bound: nat, items: map<int, Item>, tasks: map<int, TaskPc>, job: int) {
    |BusyTasks(items, tasks, job)| <= bound
  }

  ghost predicate BusyOk(env: Env, items: map<int, Item>, tasks: map<int, TaskPc>) {
    forall j :: BusyWithin(env.concurrency, items, tasks, j)
  }

  ghost predicate Attended(env: Env, s: State)
    requires s.live.Up?
  {
    && LeasesOk(s.db.leases.rows, s.db.items.rows, s.live.acts, s.live.tasks)
    && TasksOk(s.db.items.rows, s.live.workers, s.live.tasks)
    && WorkersOk(s.db.jobs.rows, s.live.workers)
    && ActsOk(s.db.entries.rows, s.db.prompts.rows, s.db.sessions.rows, s.db.logs, s.live.acts, s.nextAct)
    && PrepsOk(env, s.db.entries.rows, s.db.prompts.rows, s.live.preps)
    && BusyOk(env, s.db.items.rows, s.live.tasks)
  }

  ghost predicate Inv(env: Env, s: State) {
    && Stored(env, s.db, s.nextAct, s.history)
    && (s.live.Up? ==> Attended(env, s))
  }

  /** A database the service may be started on: well-formed tables, chats made of turns, at most
      one running job; any legacy jobs, none with a snapshot; any leftover leases. */
  ghost predicate Initial(s: State) {
    && s.live.Down? && s.history == []
    && EntriesValid(s.db.entries) && PromptsValid(s.db.prompts, s.db.activePrompt) && ResultsValid(s.db.commentary, s.db.reports)
    && s.db.jobs.Valid() && s.db.items.Valid() && s.db.sessions.Valid() && s.db.leases.Valid()
    && JobsOk(s.db.entries.rows, s.db.prompts.rows, s.db.jobs.rows)
    && OneRunning(s.db.jobs.rows)
    && (forall j :: j in s.db.jobs.rows ==> s.db.jobs.rows[j].snapshotCount.None?)
    && (forall i :: i in s.db.items.rows ==>
          && s.db.items.rows[i].jobId in s.db.jobs.rows
          && (Unfinished(s.db.items.rows[i]) ==> s.db.jobs.rows[s.db.items.rows[i].jobId].status == JobRunning))
    && ChatOk(s.db.logs, s.db.sessions.rows, s.nextAct)
  }

  lemma InitialInv(env: Env, s: State)
    requires Initial(s)
    ensures Inv(env, s)
  {
  }
}
