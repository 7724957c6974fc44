/** The generation-safety protocol: the database together with everything a live process holds in
    memory, and every atomic step either can take.

    A step is one database transaction or autocommitted statement, with the in-memory bookkeeping
    that happens before the next `await`. Worker item tasks, routes, the maintenance commands and
    process crashes interleave freely. */
module GenerationSafety {
  import opened Tables
  import opened TargetKeys
  import opened Archive
  import opened Store

  /** How far one `_process_item` task has come. */
  datatype TaskPc = Queued | Generating | Settled | Finished

  /** How far one `run_job` has come: not begun, waiting for the model limit, claiming, gathering. */
  datatype Phase = Scheduled | Loaded | Claiming | Draining

  datatype Worker = Worker(recovering: bool, phase: Phase, limitKnown: bool)

  /** A route's request while it holds a lease. */
  datatype ActivityKind =
    | DirectReport(promptId: Option<int>, saved: bool)
    | Admitted
    | Turn(answered: bool)
    | RequestScoped

  datatype Activity = Activity(kind: ActivityKind, key: Key, leaseId: int)

  /** A prepared and preflighted batch that has not been submitted yet. */
  datatype Prep = Prep(prompt: PromptChoice, ids: seq<int>, targets: seq<Prepared>)

  datatype Live =
    | Down
    | Up(acts: map<int, Activity>, preps: map<int, Prep>, workers: map<int, Worker>, tasks: map<int, TaskPc>)

  /** One result row ever inserted, and for whom. */
  datatype Produced = Produced(targetType: TargetType, resultId: int, origin: Holder)

  /** `nextAct` and `history` survive crashes; they record what happened and steer nothing. */
  datatype State = State(db: Db, live: Live, nextAct: int, history: seq<Produced>)

  /** The request assembly code: from an ordered archive, a prompt and a target to the assembly
      version and fingerprint of the request, or nothing if assembly fails. */
  type Assembler = (seq<Entry>, Prompt, TargetType, Option<int>) -> Option<(int, string)>

  datatype Env = Env(assemble: Assembler, concurrency: nat)

  datatype Action =
    | AddEntry(date: string, title: string, text: string)
    | ApplyPrompt(body: string, model: string)
    | Lock
    | Unlock
    | StartReport
    | SaveReport(act: int, text: string)
    | StartTurn(thread: Key)
    | Ask(act: int, text: string)
    | Answer(act: int, text: string)
    | StartRequest(token: string)
    | HandOff(act: int, title: string, text: string)
    | Release(act: int)
    | RemoveSession(session: int)
    | PrepareOne(entry: int)
    | PrepareAll(draft: Option<Prompt>)
    | Submit(prep: int)
    | Load(job: int)
    | LearnLimit(job: int, known: bool, admits: bool)
    | Claim(item: int)
    | EndClaims(job: int)
    | Begin(item: int)
    | Settle(item: int, generated: Option<string>)
    | Free(item: int)
    | Finish(job: int)
    | RetryItem(item: int, expectedJob: Option<int>)
    | Crash
    | Restart

  // ------------------------------------------------------------------ request identities

  /** What `build_*_envelope` and `fingerprint` give for one target of one archive and prompt. */
  function PreparedTarget(env: Env, all: seq<Entry>, prompt: Prompt, targetType: TargetType, entryId: Option<int>): Option<Prepared> {
    match env.assemble(all, prompt, targetType, entryId)
    case None => None
    case Some((version, mark)) =>
      var p := Prepared(targetType, entryId, version, mark);
      if p.Valid() then Some(p) else None
  }

  function PreparedEntries(env: Env, all: seq<Entry>, prompt: Prompt, ids: seq<int>): Option<seq<Prepared>> {
    if ids == [] then Some([])
    else
      var n := |ids| - 1;
      match (PreparedEntries(env, all, prompt, ids[..n]), PreparedTarget(env, all, prompt, EntryCommentary, Some(ids[n])))
      case (Some(before), Some(p)) => Some(before + [p])
      case _ => None
  }

  /** Every entry's reflection, then the report. */
  function PreparedAll(env: Env, all: seq<Entry>, prompt: Prompt, ids: seq<int>): Option<seq<Prepared>> {
    match (PreparedEntries(env, all, prompt, ids), PreparedTarget(env, all, prompt, AggregateReport, None))
    case (Some(entries), Some(report)) => Some(entries + [report])
    case _ => None
  }

  /** The rebuilt request of `item` still has the stored version and fingerprint. */
  predicate Matches(env: Env, entries: Entries, prompt: Prompt, snapshot: seq<int>, item: Item) {
    && env.assemble(Resolve(entries, snapshot), prompt, item.targetType, item.entryId).Some?
    && var (version, mark) := env.assemble(Resolve(entries, snapshot), prompt, item.targetType, item.entryId).value;
    && item.formatVersion == Some(version)
    && item.fingerprint == Some(mark)
  }

  // ------------------------------------------------------------------ steps of routes

  function WithAct(s: State, db: Db, act: Activity): State
    requires s.live.Up?
  {
    s.(db := db, live := s.live.(acts := s.live.acts[s.nextAct := act]), nextAct := s.nextAct + 1)
  }

  function DoStartReport(s: State): State
    requires s.live.Up?
  {
    match AcquireLease(s.db, ReportKey, Direct, ForActivity(s.nextAct))
    case (db, Success(id)) => WithAct(s, db, Activity(DirectReport(s.db.activePrompt, false), ReportKey, id))
    case (_, Failure(_)) => s
  }

  function DoSaveReport(s: State, a: int, text: string): State
    requires s.live.Up?
  {
    if a in s.live.acts && s.live.acts[a].kind.DirectReport? && !s.live.acts[a].kind.saved && s.live.acts[a].kind.promptId.Some? then
      var act := s.live.acts[a];
      s.(db := InsertReport(s.db, act.kind.promptId.value, text),
         live := s.live.(acts := s.live.acts[a := act.(kind := act.kind.(saved := true))]),
         history := s.history + [Produced(AggregateReport, s.db.reports.next, ForActivity(a))])
    else s
  }

  predicate ThreadExists(entries: Entries, sessions: map<int, string>, thread: Key) {
    || (thread.EntryThreadKey? && thread.entryId in entries)
    || (thread.ConversationKey? && thread.sessionId in sessions)
  }

  /** Acquire the thread lease, then check the thread: a missing session gives the lease back. A
      missing entry is refused before the lease. */
  function DoStartTurn(s: State, thread: Key): State
    requires s.live.Up?
  {
    if !(thread.ConversationKey? || ThreadExists(s.db.entries.rows, s.db.sessions.rows, thread)) then s
    else
      match AcquireLease(s.db, thread, Thread, ForActivity(s.nextAct))
      case (_, Failure(_)) => s
      case (db, Success(id)) =>
        if ThreadExists(db.entries.rows, db.sessions.rows, thread) then WithAct(s, db, Activity(Admitted, thread, id))
        else s.(db := ReleaseLease(db, id))
  }

  function DoAsk(s: State, a: int, text: string): State
    requires s.live.Up?
  {
    if a in s.live.acts && s.live.acts[a].kind.Admitted? then
      var act := s.live.acts[a];
      s.(db := Say(s.db, act.key, Message(User, a, text)),
         live := s.live.(acts := s.live.acts[a := act.(kind := Turn(false))]))
    else s
  }

  function DoAnswer(s: State, a: int, text: string): State
    requires s.live.Up?
  {
    if a in s.live.acts && s.live.acts[a].kind == Turn(false) then
      var act := s.live.acts[a];
      s.(db := Say(s.db, act.key, Message(Assistant, a, text)),
         live := s.live.(acts := s.live.acts[a := act.(kind := Turn(true))]))
    else s
  }

  function DoStartRequest(s: State, token: string): State
    requires s.live.Up?
  {
    match AcquireLease(s.db, RequestKey(token), Request, ForActivity(s.nextAct))
    case (db, Success(id)) => WithAct(s, db, Activity(RequestScoped, RequestKey(token), id))
    case (_, Failure(_)) => s
  }

  /** On success the activity becomes a turn of the new conversation; on refusal the route gives
      its request lease back. */
  ghost function DoHandOff(s: State, a: int, title: string, text: string): State
    requires s.live.Up?
  {
    if a in s.live.acts && s.live.acts[a].kind.RequestScoped? then
      var act := s.live.acts[a];
      match Handoff(s.db, act.leaseId, title, Message(User, a, text))
      case (db, Success(id)) =>
        s.(db := db, live := s.live.(acts := s.live.acts[a := Activity(Turn(false), ConversationKey(id), act.leaseId)]))
      case (_, Failure(_)) => DoRelease(s, a)
    else s
  }

  function DoRelease(s: State, a: int): State
    requires s.live.Up?
  {
    if a in s.live.acts then
      s.(db := ReleaseLease(s.db, s.live.acts[a].leaseId), live := s.live.(acts := s.live.acts - {a}))
    else s
  }

  function DoPrepareOne(env: Env, s: State, entry: int): State
    requires s.live.Up? && s.db.entries.Valid()
  {
    if s.db.activePrompt.Some? && s.db.activePrompt.value in s.db.prompts.rows && entry in s.db.entries.rows then
      var id := s.db.activePrompt.value;
      match PreparedTarget(env, LiveArchive(s.db.entries), s.db.prompts.rows[id], EntryCommentary, Some(entry))
      case None => s
      case Some(p) => WithPrep(s, Prep(Existing(id), OrderedIds(s.db.entries), [p]))
    else s
  }

  function WithPrep(s: State, prep: Prep): State
    requires s.live.Up?
  {
    s.(live := s.live.(preps := s.live.preps[s.nextAct := prep]), nextAct := s.nextAct + 1)
  }

  function DoPrepareAll(env: Env, s: State, draft: Option<Prompt>): State
    requires s.live.Up? && s.db.entries.Valid()
  {
    var ids := OrderedIds(s.db.entries);
    match draft
    case Some(prompt) =>
      (match PreparedAll(env, LiveArchive(s.db.entries), prompt, ids)
       case None => s
       case Some(targets) => WithPrep(s, Prep(Activate(prompt.body, prompt.model), ids, targets)))
    case None =>
      if s.db.activePrompt.Some? && s.db.activePrompt.value in s.db.prompts.rows then
        var id := s.db.activePrompt.value;
        match PreparedAll(env, LiveArchive(s.db.entries), s.db.prompts.rows[id], ids)
        case None => s
        case Some(targets) => WithPrep(s, Prep(Existing(id), ids, targets))
      else s
  }

  ghost function DoSubmit(s: State, p: int): State
    requires s.live.Up? && s.db.entries.Valid()
  {
    if p in s.live.preps && AllValid(s.live.preps[p].targets) then
      var prep := s.live.preps[p];
      var spent := s.live.(preps := s.live.preps - {p});
      match Enqueue(s.db, prep.prompt, prep.ids, prep.targets)
      case (db, Success(job)) => s.(db := db, live := spent.(workers := spent.workers[job := Worker(false, Scheduled, false)]))
      case (_, Failure(_)) => s.(live := spent)
    else s
  }

  // ------------------------------------------------------------------ steps of workers

  /** `run_job`'s checks before any item is claimed. */
  predicate SetupOk(db: Db, job: int) {
    && job in db.jobs.rows
    && db.jobs.rows[job].snapshotCount.Some?
    && db.jobs.rows[job].promptId in db.prompts.rows
    && |db.jobs.rows[job].snapshot| == db.jobs.rows[job].snapshotCount.value
    && |Resolve(db.entries.rows, db.jobs.rows[job].snapshot)| == |db.jobs.rows[job].snapshot|
  }

  function TasksOf(s: State, job: int): set<int>
    requires s.live.Up?
  {
    set i | i in s.live.tasks && i in s.db.items.rows && s.db.items.rows[i].jobId == job
  }

  function StopWorker(s: State, job: int): Live
    requires s.live.Up?
  {
    s.live.(workers := s.live.workers - {job}, tasks := s.live.tasks - TasksOf(s, job))
  }

  function Refuse(s: State, job: int): State
    requires s.live.Up?
  {
    if job in s.db.jobs.rows then s.(db := CancelAndRelease(s.db, job), live := StopWorker(s, job))
    else s.(live := StopWorker(s, job))
  }

  function DoLoad(s: State, job: int): State
    requires s.live.Up?
  {
    if job in s.live.workers && s.live.workers[job].phase == Scheduled then
      if SetupOk(s.db, job) then
        s.(live := s.live.(workers := s.live.workers[job := s.live.workers[job].(phase := Loaded)]))
      else Refuse(s, job)
    else s
  }

  predicate StillMatches(env: Env, db: Db, item: Item) {
    && item.jobId in db.jobs.rows && db.jobs.rows[item.jobId].promptId in db.prompts.rows
    && Matches(env, db.entries.rows, db.prompts.rows[db.jobs.rows[item.jobId].promptId], db.jobs.rows[item.jobId].snapshot, item)
  }

  /** `_validate_recovered_items` up to the budget, which is the nondeterministic `admits`. */
  predicate AllMatch(env: Env, db: Db, job: int) {
    forall i :: i in db.items.rows && db.items.rows[i].jobId == job && Unfinished(db.items.rows[i]) ==>
      StillMatches(env, db, db.items.rows[i])
  }

  ghost function DoLearnLimit(env: Env, s: State, job: int, known: bool, admits: bool): State
    requires s.live.Up?
  {
    if job in s.live.workers && s.live.workers[job].phase == Loaded then
      var w := s.live.workers[job];
      if w.recovering && !(known && admits && AllMatch(env, s.db, job)) then Refuse(s, job)
      else s.(live := s.live.(workers := s.live.workers[job := w.(phase := Claiming, limitKnown := known)]))
    else s
  }

  function DoClaim(s: State, i: int): State
    requires s.live.Up?
  {
    if i in s.db.items.rows && s.db.items.rows[i].status == Pending
       && s.db.items.rows[i].jobId in s.live.workers && s.live.workers[s.db.items.rows[i].jobId].phase == Claiming then
      s.(db := ClaimItem(s.db, i), live := s.live.(tasks := s.live.tasks[i := Queued]))
    else s
  }

  predicate AnyPending(db: Db, job: int) {
    exists i :: i in db.items.rows && db.items.rows[i].jobId == job && db.items.rows[i].status == Pending
  }

  ghost function DoEndClaims(s: State, job: int): State
    requires s.live.Up?
  {
    if job in s.live.workers && s.live.workers[job].phase == Claiming && !AnyPending(s.db, job) then
      s.(live := s.live.(workers := s.live.workers[job := s.live.workers[job].(phase := Draining)]))
    else s
  }

  /** Inside `async with self.semaphore`. */
  predicate Busy(pc: TaskPc) {
    pc == Generating || pc == Settled
  }

  function BusyTasks(items: map<int, Item>, tasks: map<int, TaskPc>, job: int): set<int> {
    set i | i in tasks && i in items && items[i].jobId == job && Busy(tasks[i])
  }

  function DoBegin(env: Env, s: State, i: int): State
    requires s.live.Up?
  {
    if i in s.live.tasks && s.live.tasks[i] == Queued && i in s.db.items.rows
       && |BusyTasks(s.db.items.rows, s.live.tasks, s.db.items.rows[i].jobId)| < env.concurrency then
      s.(live := s.live.(tasks := s.live.tasks[i := Generating]))
    else s
  }

  /** The generation of item i ends: with a text, or (None) with any failure. A missing limit, a
      changed request format or a refused insert also fails the item. */
  ghost function DoSettle(env: Env, s: State, i: int, text: Option<string>): State
    requires s.live.Up?
  {
    if i in s.live.tasks && s.live.tasks[i] == Generating && i in s.db.items.rows
       && s.db.items.rows[i].jobId in s.live.workers && s.db.items.rows[i].jobId in s.db.jobs.rows then
      var item := s.db.items.rows[i];
      var settled := s.live.(tasks := s.live.tasks[i := Settled]);
      var failed := s.(db := FailItem(s.db, i, ""), live := settled);
      if text.None? || !s.live.workers[item.jobId].limitKnown || !StillMatches(env, s.db, item) then failed
      else
        var row := ResultRow(if item.targetType == EntryCommentary then item.entryId else None,
                             s.db.jobs.rows[item.jobId].promptId, true, text.value);
        match CompleteItem(s.db, i, item.targetType, row)
        case None => failed
        case Some(db) =>
          s.(db := db, live := settled,
             history := s.history + [Produced(item.targetType, ResultTable(s.db, item.targetType).next, ForItem(i))])
    else s
  }

  function DoFree(s: State, i: int): State
    requires s.live.Up?
  {
    if i in s.live.tasks && s.live.tasks[i] == Settled && i in s.db.items.rows then
      s.(db := ReleaseTarget(s.db, ItemKey(s.db.items.rows[i])), live := s.live.(tasks := s.live.tasks[i := Finished]))
    else s
  }

  predicate AllFinished(s: State, job: int)
    requires s.live.Up?
  {
    forall i :: i in s.live.tasks && i in s.db.items.rows && s.db.items.rows[i].jobId == job ==> s.live.tasks[i] == Finished
  }

  ghost function DoFinish(s: State, job: int): State
    requires s.live.Up?
  {
    if job in s.live.workers && job in s.db.jobs.rows && s.live.workers[job].phase == Draining && AllFinished(s, job) then
      s.(db := FinalizeJob(s.db, job), live := StopWorker(s, job))
    else s
  }

  ghost function DoRetry(s: State, i: int, expectedJob: Option<int>): State
    requires s.live.Up?
  {
    match Retry(s.db, i, expectedJob)
    case (db, Success(job)) => s.(db := db, live := s.live.(workers := s.live.workers[job := Worker(false, Scheduled, false)]))
    case (_, Failure(_)) => s
  }

  function DoRestart(s: State): State {
    var r := Recover(s.db);
    s.(db := r.db, live := Up(map[], map[], map j | j in r.recovered :: Worker(true, Scheduled, false), map[]))
  }

  // ------------------------------------------------------------------ runs

  /** Steps that need no live process. */
  ghost function ApplyOffline(s: State, a: Action): State {
    match a
    case AddEntry(date, title, text) => s.(db := WriteEntry(s.db, date, title, text))
    case Lock => s.(db := SetLocked(s.db, true))
    case Unlock => s.(db := UnlockIfIdle(s.db).0)
    case Crash => s.(live := Down)
    case Restart => if s.live.Down? then DoRestart(s) else s
    case _ => s
  }

  ghost function ApplyOnline(env: Env, s: State, a: Action): State
    requires s.live.Up? && s.db.entries.Valid()
  {
    match a
    case ApplyPrompt(body, model) => s.(db := ActivatePrompt(s.db, body, model))
    case StartReport => DoStartReport(s)
    case SaveReport(act, text) => DoSaveReport(s, act, text)
    case StartTurn(thread) => DoStartTurn(s, thread)
    case Ask(act, text) => DoAsk(s, act, text)
    case Answer(act, text) => DoAnswer(s, act, text)
    case StartRequest(token) => DoStartRequest(s, token)
    case HandOff(act, title, text) => DoHandOff(s, act, title, text)
    case Release(act) => DoRelease(s, act)
    case RemoveSession(session) => s.(db := DeleteSession(s.db, session).0)
    case PrepareOne(entry) => DoPrepareOne(env, s, entry)
    case PrepareAll(draft) => DoPrepareAll(env, s, draft)
    case Submit(prep) => DoSubmit(s, prep)
    case Load(job) => DoLoad(s, job)
    case LearnLimit(job, known, admits) => DoLearnLimit(env, s, job, known, admits)
    case Claim(item) => DoClaim(s, item)
    case EndClaims(job) => DoEndClaims(s, job)
    case Begin(item) => DoBegin(env, s, item)
    case Settle(item, text) => DoSettle(env, s, item, text)
    case Free(item) => DoFree(s, item)
    case Finish(job) => DoFinish(s, job)
    case RetryItem(item, expectedJob) => DoRetry(s, item, expectedJob)
    case _ => ApplyOffline(s, a)
  }

  /** One step. An action that is not enabled changes nothing. */
  ghost function Apply(env: Env, s: State, a: Action): State {
    if s.live.Up? && s.db.entries.Valid() then ApplyOnline(env, s, a) else ApplyOffline(s, a)
  }

  ghost function Run(env: Env, s: State, actions: seq<Action>): State {
    if actions == [] then s else Apply(env, Run(env, s, actions[..|actions| - 1]), actions[|actions| - 1])
  }
}
