/** The database: its tables, and every write transaction as a function of the state it found.

    One `BEGIN IMMEDIATE ... COMMIT` (or one autocommitted statement) is one function. A refusal
    returns the state unchanged: that is the transaction's `ROLLBACK`. The imperative form of the
    same transactions is in Database.dfy, proved against these functions. */
module Store {
  import opened Tables
  import opened TargetKeys
  import opened Archive

  datatype TargetType = EntryCommentary | AggregateReport
  datatype ItemStatus = Pending | Running | Ok | Failed
  datatype JobStatus = JobRunning | JobDone | JobCancelled
  datatype LeaseKind = Direct | Background | Thread | Request
  datatype Role = User | Assistant

  datatype Prompt = Prompt(body: string, model: string)

  /** A row of `entry_commentary` (entryId set) or of `aggregate_report` (entryId absent). */
  datatype ResultRow = ResultRow(entryId: Option<int>, promptId: int, ok: bool, body: string)

  /** `snapshot` holds the job's `regen_job_entry_snapshot` rows in ordinal order. A legacy job has
      no snapshot count. */
  datatype Job = Job(promptId: int, status: JobStatus, snapshotCount: Option<int>, snapshot: seq<int>)

  datatype Item = Item(
    jobId: int, targetType: TargetType, entryId: Option<int>, status: ItemStatus,
    formatVersion: Option<int>, fingerprint: Option<string>, baseline: Option<int>,
    resultId: Option<int>, attempts: nat, error: Option<string>)

  /** On whose behalf a lease row was inserted. History only: no transaction reads it. */
  datatype Holder = ForItem(itemId: int) | ForActivity(activity: int)

  datatype Lease = Lease(id: int, kind: LeaseKind, holder: Holder)

  /** `generation_lease`: UNIQUE(target_key) makes the key a map key. */
  datatype LeaseTable = LeaseTable(rows: map<Key, Lease>, next: int) {
    ghost predicate Valid() {
      && 0 < next
      && (forall k :: k in rows ==> 0 < rows[k].id < next)
      && forall k, l :: k in rows && l in rows && rows[k].id == rows[l].id ==> k == l
    }

    function Add(key: Key, kind: LeaseKind, holder: Holder): LeaseTable {
      LeaseTable(rows[key := Lease(next, kind, holder)], next + 1)
    }

    function DropKey(key: Key): LeaseTable {
      LeaseTable(rows - {key}, next)
    }

    function DropId(id: int): LeaseTable {
      LeaseTable(map k | k in rows && rows[k].id != id :: rows[k], next)
    }

    function DropIds(ids: set<int>): LeaseTable {
      LeaseTable(map k | k in rows && rows[k].id !in ids :: rows[k], next)
    }

    predicate HasId(id: int) {
      exists k :: k in rows && rows[k].id == id
    }

    /** `UPDATE generation_lease SET target_key = ? WHERE id = ?`. */
    ghost function Rekey(id: int, key: Key): LeaseTable
      requires HasId(id)
    {
      var k :| k in rows && rows[k].id == id;
      LeaseTable((rows - {k})[key := rows[k]], next)
    }
  }

  /** `turn` names the request that wrote the message. History only. */
  datatype Message = Message(role: Role, turn: int, content: string)

  datatype Db = Db(
    entries: Table<Entry>,
    prompts: Table<Prompt>, activePrompt: Option<int>,
    commentary: Table<ResultRow>, reports: Table<ResultRow>,
    jobs: Table<Job>, items: Table<Item>,
    leases: LeaseTable,
    sessions: Table<string>, logs: map<Key, seq<Message>>,
    locked: bool)

  datatype Refusal =
    | MaintenanceLocked | ArchiveChanged | TargetBusy(key: Key) | IntegrityError
    | StaleOrSuperseded | ItemJobMismatch | InvalidTarget | LeaseExpired | NotFound
    | GenerationActive

  // ------------------------------------------------------------------ targets and results

  predicate Unfinished(item: Item) {
    item.status == Pending || item.status == Running
  }

  /** `PreparedRegenTarget`: what a caller must have computed before asking for a job item. */
  datatype Prepared = Prepared(targetType: TargetType, entryId: Option<int>, formatVersion: int, fingerprint: string) {
    /** The constructor's own checks. */
    predicate Valid() {
      && (targetType == EntryCommentary ==> entryId.Some? && entryId.value != 0)
      && (targetType == AggregateReport ==> entryId.None?)
      && formatVersion >= 1
      && fingerprint != ""
    }

    function Key(): Key
      requires Valid()
    {
      if targetType == EntryCommentary then EntryKey(entryId.value) else ReportKey
    }
  }

  /** The lease key an item's work is done under; a malformed item (no entry) has none. */
  function ItemKey(item: Item): Option<Key> {
    if item.targetType == AggregateReport then Some(ReportKey)
    else if item.entryId.Some? then Some(EntryKey(item.entryId.value))
    else None
  }

  function ResultTable(db: Db, targetType: TargetType): Table<ResultRow> {
    if targetType == EntryCommentary then db.commentary else db.reports
  }

  /** `... WHERE entry_id = ? AND status = 'ok' ORDER BY id DESC LIMIT 1`. */
  function Highest(rows: map<int, ResultRow>, entryId: Option<int>, bound: int): (r: Option<int>)
    ensures r.Some? ==> r.value in rows && rows[r.value].ok && rows[r.value].entryId == entryId && 0 <= r.value < bound
    ensures r.Some? ==> forall k :: k in rows && rows[k].ok && rows[k].entryId == entryId && 0 <= k < bound ==> k <= r.value
    ensures r.None? ==> forall k :: k in rows && rows[k].ok && rows[k].entryId == entryId ==> k < 0 || k >= bound
    decreases if bound < 0 then 0 else bound
  {
    if bound <= 0 then None
    else if bound - 1 in rows && rows[bound - 1].ok && rows[bound - 1].entryId == entryId then Some(bound - 1)
    else Highest(rows, entryId, bound - 1)
  }

  /** The id of a target's current successful result: the highest one. */
  function Current(results: Table<ResultRow>, entryId: Option<int>): Option<int> {
    Highest(results.rows, entryId, results.next)
  }

  function CurrentResult(db: Db, targetType: TargetType, entryId: Option<int>): Option<int> {
    Current(ResultTable(db, targetType), entryId)
  }

  // ------------------------------------------------------------------ archive and prompts

  function WriteEntry(db: Db, date: string, title: string, text: string): Db {
    db.(entries := db.entries.Insert(Entry(db.entries.next, date, title, text)))
  }

  function ActivatePrompt(db: Db, body: string, model: string): Db {
    db.(prompts := db.prompts.Insert(Prompt(body, model)), activePrompt := Some(db.prompts.next))
  }

  // ------------------------------------------------------------------ leases and maintenance

  function AcquireLease(db: Db, key: Key, kind: LeaseKind, holder: Holder): (Db, Result<int, Refusal>) {
    if db.locked then (db, Failure(MaintenanceLocked))
    else if key in db.leases.rows then (db, Failure(TargetBusy(key)))
    else (db.(leases := db.leases.Add(key, kind, holder)), Success(db.leases.next))
  }

  function ReleaseLease(db: Db, id: int): Db {
    db.(leases := db.leases.DropId(id))
  }

  function ReleaseTarget(db: Db, key: Option<Key>): Db {
    if key.Some? then db.(leases := db.leases.DropKey(key.value)) else db
  }

  predicate SomeJobRunning(jobs: Table<Job>) {
    exists j :: j in jobs.rows && jobs.rows[j].status == JobRunning
  }

  predicate Idle(db: Db) {
    !SomeJobRunning(db.jobs) && db.leases.rows == map[]
  }

  function SetLocked(db: Db, locked: bool): Db {
    db.(locked := locked)
  }

  ghost function UnlockIfIdle(db: Db): (Db, Result<(), Refusal>) {
    if Idle(db) then (SetLocked(db, false), Success(())) else (db, Failure(GenerationActive))
  }

  // ------------------------------------------------------------------ enqueue

  /** Exactly one of `prompt_version_id` and `activate_prompt`. */
  datatype PromptChoice = Existing(id: int) | Activate(body: string, model: string)

  datatype Claimed = Claimed(leases: LeaseTable) | Taken(key: Key)

  ghost predicate AllValid(targets: seq<Prepared>) {
    forall i :: 0 <= i < |targets| ==> targets[i].Valid()
  }

  /** One background lease per target, in order; the k-th is for the item the k-th insert creates. */
  function ClaimTargets(leases: LeaseTable, targets: seq<Prepared>, firstItem: int): Claimed
    requires AllValid(targets)
  {
    if targets == [] then Claimed(leases)
    else
      var n := |targets| - 1;
      match ClaimTargets(leases, targets[..n], firstItem)
      case Taken(key) => Taken(key)
      case Claimed(l) =>
        var key := targets[n].Key();
        if key in l.rows then Taken(key) else Claimed(l.Add(key, Background, ForItem(firstItem + n)))
  }

  function NewItem(db: Db, jobId: int, target: Prepared): Item {
    Item(jobId, target.targetType, target.entryId, Pending, Some(target.formatVersion), Some(target.fingerprint),
         CurrentResult(db, target.targetType, target.entryId), None, 0, None)
  }

  function AddItems(db: Db, jobId: int, targets: seq<Prepared>): (items: Table<Item>)
    ensures items.next == db.items.next + |targets|
  {
    if targets == [] then db.items
    else
      var n := |targets| - 1;
      AddItems(db, jobId, targets[..n]).Insert(NewItem(db, jobId, targets[n]))
  }

  /** The foreign key on `regen_job_item.entry_id`. */
  predicate TargetsExist(entries: Table<Entry>, targets: seq<Prepared>) {
    forall i :: 0 <= i < |targets| && targets[i].entryId.Some? ==> targets[i].entryId.value in entries.rows
  }

  function ChosenPrompt(db: Db, prompt: PromptChoice): (Db, int) {
    match prompt
    case Existing(id) => (db, id)
    case Activate(body, model) => (ActivatePrompt(db, body, model), db.prompts.next)
  }

  ghost function Enqueue(db: Db, prompt: PromptChoice, preflight: seq<int>, targets: seq<Prepared>): (Db, Result<int, Refusal>)
    requires db.entries.Valid() && AllValid(targets)
  {
    if db.locked then (db, Failure(MaintenanceLocked))
    else if OrderedIds(db.entries) != preflight then (db, Failure(ArchiveChanged))
    else
      match ClaimTargets(db.leases, targets, db.items.next)
      case Taken(key) => (db, Failure(TargetBusy(key)))
      case Claimed(leases) =>
        var (chosen, promptId) := ChosenPrompt(db, prompt);
        if promptId !in chosen.prompts.rows || SomeJobRunning(db.jobs) || !TargetsExist(db.entries, targets) then
          (db, Failure(IntegrityError))
        else
          var jobId := db.jobs.next;
          (chosen.(leases := leases,
                   jobs := db.jobs.Insert(Job(promptId, JobRunning, Some(|preflight|), preflight)),
                   items := AddItems(db, jobId, targets)),
           Success(jobId))
  }

  // ------------------------------------------------------------------ retry

  predicate NewerItem(items: Table<Item>, itemId: int)
    requires itemId in items.rows
  {
    exists k :: k in items.rows && k > itemId
      && items.rows[k].targetType == items.rows[itemId].targetType
      && items.rows[k].entryId == items.rows[itemId].entryId
  }

  predicate OtherJobRunning(jobs: Table<Job>, jobId: int) {
    exists j :: j in jobs.rows && j != jobId && jobs.rows[j].status == JobRunning
  }

  function PreparedOf(item: Item): Option<Prepared> {
    if item.formatVersion.None? || item.formatVersion.value == 0 || item.fingerprint.None? || item.fingerprint.value == "" then None
    else Some(Prepared(item.targetType, item.entryId, item.formatVersion.value, item.fingerprint.value))
  }

  ghost function Retry(db: Db, itemId: int, expectedJob: Option<int>): (Db, Result<int, Refusal>) {
    if itemId !in db.items.rows then (db, Failure(StaleOrSuperseded))
    else
      var item := db.items.rows[itemId];
      if expectedJob.Some? && expectedJob.value != item.jobId then (db, Failure(ItemJobMismatch))
      else if item.status != Failed then (db, Failure(StaleOrSuperseded))
      else if db.locked then (db, Failure(MaintenanceLocked))
      else if item.jobId !in db.jobs.rows || db.jobs.rows[item.jobId].snapshotCount.None? then (db, Failure(StaleOrSuperseded))
      else if db.jobs.rows[item.jobId].status != JobDone then (db, Failure(StaleOrSuperseded))
      else if PreparedOf(item).None? then (db, Failure(StaleOrSuperseded))
      else if !PreparedOf(item).value.Valid() then (db, Failure(InvalidTarget))
      else if CurrentResult(db, item.targetType, item.entryId) != item.baseline then (db, Failure(StaleOrSuperseded))
      else if NewerItem(db.items, itemId) then (db, Failure(StaleOrSuperseded))
      else if PreparedOf(item).value.Key() in db.leases.rows then (db, Failure(TargetBusy(PreparedOf(item).value.Key())))
      else if OtherJobRunning(db.jobs, item.jobId) then (db, Failure(IntegrityError))
      else
        (db.(leases := db.leases.Add(PreparedOf(item).value.Key(), Background, ForItem(itemId)),
             items := db.items.Set(itemId, item.(status := Pending, error := None)),
             jobs := db.jobs.Set(item.jobId, db.jobs.rows[item.jobId].(status := JobRunning))),
         Success(item.jobId))
  }

  // ------------------------------------------------------------------ worker transactions

  function ClaimItem(db: Db, itemId: int): Db
    requires itemId in db.items.rows
  {
    db.(items := db.items.Set(itemId, db.items.rows[itemId].(status := Running)))
  }

  /** Every other commentary row of the entry goes in the same transaction. */
  function PruneOthers(rows: map<int, ResultRow>, entryId: Option<int>, keep: int): map<int, ResultRow> {
    map k | k in rows && (rows[k].entryId != entryId || k == keep) :: rows[k]
  }

  /** Insert the result row and mark the item ok; a violated foreign key rolls back (None). */
  function CompleteItem(db: Db, itemId: int, targetType: TargetType, row: ResultRow): Option<Db>
    requires itemId in db.items.rows
  {
    if row.promptId !in db.prompts.rows || (row.entryId.Some? && row.entryId.value !in db.entries.rows) then None
    else
      var resultId := ResultTable(db, targetType).next;
      var done := db.(items := db.items.Set(itemId, db.items.rows[itemId].(status := Ok, resultId := Some(resultId))));
      var grown := ResultTable(db, targetType).Insert(row);
      if targetType == EntryCommentary then
        Some(done.(commentary := Table(PruneOthers(grown.rows, row.entryId, resultId), grown.next)))
      else
        Some(done.(reports := grown))
  }

  function FailItem(db: Db, itemId: int, error: string): Db
    requires itemId in db.items.rows
  {
    var item := db.items.rows[itemId];
    db.(items := db.items.Set(itemId, item.(status := Failed, error := Some(error), attempts := item.attempts + 1)))
  }

  predicate HasUnfinished(items: Table<Item>, jobId: int) {
    exists k :: k in items.rows && items.rows[k].jobId == jobId && Unfinished(items.rows[k])
  }

  ghost function FinalizeJob(db: Db, jobId: int): Db
    requires jobId in db.jobs.rows
  {
    if HasUnfinished(db.items, jobId) then db
    else db.(jobs := db.jobs.Set(jobId, db.jobs.rows[jobId].(status := JobDone)))
  }

  function DropUnfinished(items: Table<Item>, jobId: int): Table<Item> {
    Table(map k | k in items.rows && !(items.rows[k].jobId == jobId && Unfinished(items.rows[k])) :: items.rows[k],
          items.next)
  }

  function CancelJob(db: Db, jobId: int): Db
    requires jobId in db.jobs.rows
  {
    db.(items := DropUnfinished(db.items, jobId),
        jobs := db.jobs.Set(jobId, db.jobs.rows[jobId].(status := JobCancelled)))
  }

  /** The lease keys of a job's unfinished items. */
  function UnfinishedKeys(items: Table<Item>, jobId: int): set<Key> {
    set k | k in items.rows && items.rows[k].jobId == jobId && Unfinished(items.rows[k]) && ItemKey(items.rows[k]).Some?
      :: ItemKey(items.rows[k]).value
  }

  /** `_cancel_setup_failure`: release every unfinished item's lease, then cancel the job. */
  function CancelAndRelease(db: Db, jobId: int): Db
    requires jobId in db.jobs.rows
  {
    CancelJob(db.(leases := LeaseTable(db.leases.rows - UnfinishedKeys(db.items, jobId), db.leases.next)), jobId)
  }

  // ------------------------------------------------------------------ direct report

  /** `trigger_report`'s insert: the only result row written outside the worker. */
  function InsertReport(db: Db, promptId: int, body: string): Db {
    db.(reports := db.reports.Insert(ResultRow(None, promptId, true, body)))
  }

  // ------------------------------------------------------------------ chat

  function Log(db: Db, thread: Key): seq<Message> {
    if thread in db.logs then db.logs[thread] else []
  }

  function Say(db: Db, thread: Key, message: Message): Db {
    db.(logs := db.logs[thread := Log(db, thread) + [message]])
  }

  /** The handoff: session, first message and lease conversion in one transaction. */
  ghost function Handoff(db: Db, leaseId: int, title: string, message: Message): (Db, Result<int, Refusal>) {
    if !db.leases.HasId(leaseId) then (db, Failure(LeaseExpired))
    else
      var sessionId := db.sessions.next;
      var thread := ConversationKey(sessionId);
      var grown := Say(db.(sessions := db.sessions.Insert(title)), thread, message);
      if thread in db.leases.rows && db.leases.rows[thread].id != leaseId then (db, Failure(TargetBusy(thread)))
      else (grown.(leases := db.leases.Rekey(leaseId, thread)), Success(sessionId))
  }

  /** Acquire the thread lease, delete messages and session, release: one transaction. It does not
      consult the maintenance flag. */
  function DeleteSession(db: Db, sessionId: int): (Db, Result<(), Refusal>) {
    var thread := ConversationKey(sessionId);
    if thread in db.leases.rows then (db, Failure(TargetBusy(thread)))
    else
      (db.(leases := LeaseTable(db.leases.rows, db.leases.next + 1),
           sessions := Table(db.sessions.rows - {sessionId}, db.sessions.next),
           logs := db.logs - {thread}),
       Success(()))
  }

  // ------------------------------------------------------------------ startup recovery

  function RunningJobs(jobs: Table<Job>, bound: int): (ids: seq<int>)
    ensures forall i :: 0 <= i < |ids| ==> ids[i] in jobs.rows && jobs.rows[ids[i]].status == JobRunning && 0 <= ids[i] < bound
    ensures forall j :: j in jobs.rows && jobs.rows[j].status == JobRunning && 0 <= j < bound ==> j in ids
    ensures forall a, b :: 0 <= a < b < |ids| ==> ids[a] < ids[b]
    decreases if bound < 0 then 0 else bound
  {
    if bound <= 0 then []
    else if bound - 1 in jobs.rows && jobs.rows[bound - 1].status == JobRunning then RunningJobs(jobs, bound - 1) + [bound - 1]
    else RunningJobs(jobs, bound - 1)
  }

  function UnfinishedItems(items: Table<Item>, jobId: int, bound: int): (ids: seq<int>)
    ensures forall i :: 0 <= i < |ids| ==> ids[i] in items.rows && items.rows[ids[i]].jobId == jobId && Unfinished(items.rows[ids[i]]) && 0 <= ids[i] < bound
    ensures forall k :: k in items.rows && items.rows[k].jobId == jobId && Unfinished(items.rows[k]) && 0 <= k < bound ==> k in ids
    ensures forall a, b :: 0 <= a < b < |ids| ==> ids[a] < ids[b]
    decreases if bound < 0 then 0 else bound
  {
    if bound <= 0 then []
    else if bound - 1 in items.rows && items.rows[bound - 1].jobId == jobId && Unfinished(items.rows[bound - 1]) then
      UnfinishedItems(items, jobId, bound - 1) + [bound - 1]
    else UnfinishedItems(items, jobId, bound - 1)
  }

  /** The request identity recovery insists on before it builds a target from an item. */
  predicate ValidIdentity(item: Item, snapshot: seq<int>) {
    && PreparedOf(item).Some?
    && (if item.targetType == EntryCommentary then item.entryId.Some? && item.entryId.value in snapshot else item.entryId.None?)
  }

  predicate SnapshotValid(db: Db, job: Job)
    requires job.snapshotCount.Some?
  {
    && job.promptId in db.prompts.rows
    && |job.snapshot| == job.snapshotCount.value
    && |set k | k in job.snapshot && k in db.entries.rows| == |job.snapshot|
  }

  /** Re-acquiring the leases of the listed items, in order, ignoring maintenance; stops at the
      first busy key. `taken` are the ids of the leases acquired. */
  datatype Reacquired = Reacquired(leases: LeaseTable, taken: set<int>, busy: bool)

  ghost predicate Leasable(items: Table<Item>, ids: seq<int>) {
    forall i :: 0 <= i < |ids| ==> ids[i] in items.rows && ItemKey(items.rows[ids[i]]).Some?
  }

  function Reacquire(leases: LeaseTable, items: Table<Item>, ids: seq<int>): Reacquired
    requires Leasable(items, ids)
  {
    if ids == [] then Reacquired(leases, {}, false)
    else
      var n := |ids| - 1;
      var before := Reacquire(leases, items, ids[..n]);
      if before.busy then before
      else
        var key := ItemKey(items.rows[ids[n]]).value;
        if key in before.leases.rows then before.(busy := true)
        else Reacquired(before.leases.Add(key, Background, ForItem(ids[n])), before.taken + {before.leases.next}, false)
  }

  function RequeueRunning(items: Table<Item>, jobId: int): Table<Item> {
    Table(map k | k in items.rows :: if items.rows[k].jobId == jobId && items.rows[k].status == Running
                                     then items.rows[k].(status := Pending) else items.rows[k],
          items.next)
  }

  datatype Recovery = Recovery(db: Db, recovered: seq<int>, cancelled: seq<int>, discarded: nat)

  function Cancelled(r: Recovery, db: Db, jobId: int): Recovery
    requires jobId in db.jobs.rows
  {
    Recovery(CancelJob(db, jobId), r.recovered, r.cancelled + [jobId],
             r.discarded + |UnfinishedItems(db.items, jobId, db.items.next)|)
  }

  function RecoverJob(r: Recovery, jobId: int): Recovery
    requires jobId in r.db.jobs.rows
  {
    var job := r.db.jobs.rows[jobId];
    var ids := UnfinishedItems(r.db.items, jobId, r.db.items.next);
    if job.snapshotCount.None? then Cancelled(r, r.db, jobId)
    else if !(forall i :: 0 <= i < |ids| ==> ValidIdentity(r.db.items.rows[ids[i]], job.snapshot)) || !SnapshotValid(r.db, job) then
      Cancelled(r, r.db, jobId)
    else
      var got := Reacquire(r.db.leases, r.db.items, ids);
      if got.busy then Cancelled(r, r.db.(leases := got.leases.DropIds(got.taken)), jobId)
      else
        Recovery(r.db.(leases := got.leases, items := RequeueRunning(r.db.items, jobId)),
                 r.recovered + [jobId], r.cancelled, r.discarded)
  }

  function RecoverJobs(r: Recovery, jobIds: seq<int>): (after: Recovery)
    requires forall i :: 0 <= i < |jobIds| ==> jobIds[i] in r.db.jobs.rows
    ensures after.db.jobs.rows.Keys == r.db.jobs.rows.Keys
  {
    if jobIds == [] then r
    else
      var n := |jobIds| - 1;
      var before := RecoverJobs(r, jobIds[..n]);
      assert jobIds[n] in before.db.jobs.rows.Keys;
      RecoverJob(before, jobIds[n])
  }

  function ClearLeases(db: Db): Db {
    db.(leases := LeaseTable(map[], db.leases.next))
  }

  /** `recover_or_cancel_running_jobs`. */
  function Recover(db: Db): Recovery {
    RecoverJobs(Recovery(ClearLeases(db), [], [], 0), RunningJobs(db.jobs, db.jobs.next))
  }
}
