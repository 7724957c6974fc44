/** `retry_job_item_with_admission`: everything that is checked, read-only, before a failed item is
    requeued. */
module RetryAdmission {
  import opened Tables
  import opened Archive
  import opened Store
  import opened Database
  import opened GenerationSafety
  import opened SafetyInvariant
  import opened WorkSteps
  import opened SafetyTheorems
  import opened Guarantees
  import opened History

  datatype Verdict = Granted | NotRetryable(refusal: Refusal) | FormatChanged | LimitUnknown | OverBudget

  /** The request of the item can be rebuilt at all: it names a proper target of its job's snapshot. */
  predicate ProperTarget(item: Item, snapshot: seq<int>) {
    if item.targetType == EntryCommentary then item.entryId.Some? && item.entryId.value != 0 && item.entryId.value in snapshot
    else item.entryId.None?
  }

  /** The checks, in order. `limitKnown` and `admits` are the model's answer. */
  function Admission(env: Env, db: Db, i: int, expectedJob: Option<int>, limitKnown: bool, admits: bool): Verdict {
    if i !in db.items.rows then NotRetryable(StaleOrSuperseded)
    else
      var item := db.items.rows[i];
      if expectedJob.Some? && item.jobId != expectedJob.value then NotRetryable(ItemJobMismatch)
      else if item.status != Failed || item.jobId !in db.jobs.rows then NotRetryable(StaleOrSuperseded)
      else
        var job := db.jobs.rows[item.jobId];
        if job.snapshotCount.None? || job.status != JobDone || |job.snapshot| != job.snapshotCount.value then NotRetryable(StaleOrSuperseded)
        else if |Resolve(db.entries.rows, job.snapshot)| != |job.snapshot| || job.promptId !in db.prompts.rows then NotRetryable(StaleOrSuperseded)
        else if !ProperTarget(item, job.snapshot) || PreparedOf(item).None? then NotRetryable(StaleOrSuperseded)
        else if !StillMatches(env, db, item) then FormatChanged
        else if !limitKnown then LimitUnknown
        else if !admits then OverBudget
        else Granted
  }

  /** What other requests have made of the database while this one waits. */
  method Await(db: Database, meanwhile: Db)
    modifies db
    ensures db.State() == meanwhile
  {
    db.entries, db.prompts, db.activePrompt := meanwhile.entries, meanwhile.prompts, meanwhile.activePrompt;
    db.commentary, db.reports, db.jobs, db.items := meanwhile.commentary, meanwhile.reports, meanwhile.jobs, meanwhile.items;
    db.leases, db.sessions, db.logs, db.locked := meanwhile.leases, meanwhile.sessions, meanwhile.logs, meanwhile.locked;
  }

  /** The checks look at the database as it is before the wait for the model's limit; the transaction
      runs on whatever is there after it. A refusal writes nothing of its own. */
  method RetryJobItemWithAdmission(
      db: Database, env: Env, i: int, expectedJob: Option<int>, limitKnown: bool, admits: bool, meanwhile: Db)
    returns (verdict: Verdict, requeued: Option<int>)
    modifies db
    ensures match Admission(env, old(db.State()), i, expectedJob, limitKnown, admits)
            case Granted =>
              db.State() == Retry(meanwhile, i, expectedJob).0
              && (match Retry(meanwhile, i, expectedJob).1
                  case Success(job) => verdict == Granted && requeued == Some(job)
                  case Failure(refusal) => verdict == NotRetryable(refusal) && requeued == None)
            case refused =>
              db.State() == (if refused == LimitUnknown || refused == OverBudget then meanwhile else old(db.State()))
              && verdict == refused && requeued == None
  {
    requeued := None;
    if i !in db.items.rows {
      return NotRetryable(StaleOrSuperseded), None;
    }
    var item := db.items.rows[i];
    if expectedJob.Some? && item.jobId != expectedJob.value {
      return NotRetryable(ItemJobMismatch), None;
    }
    if item.status != Failed || item.jobId !in db.jobs.rows {
      return NotRetryable(StaleOrSuperseded), None;
    }
    var job := db.jobs.rows[item.jobId];
    if job.snapshotCount.None? || job.status != JobDone || |job.snapshot| != job.snapshotCount.value {
      return NotRetryable(StaleOrSuperseded), None;
    }
    var all := Resolve(db.entries.rows, job.snapshot);
    if |all| != |job.snapshot| || job.promptId !in db.prompts.rows {
      return NotRetryable(StaleOrSuperseded), None;
    }
    if !ProperTarget(item, job.snapshot) || PreparedOf(item).None? {
      return NotRetryable(StaleOrSuperseded), None;
    }
    var prompt := db.prompts.rows[job.promptId];
    if !Matches(env, db.entries.rows, prompt, job.snapshot, item) {
      return FormatChanged, None;
    }
    Await(db, meanwhile);
    if !limitKnown {
      return LimitUnknown, None;
    }
    if !admits {
      return OverBudget, None;
    }
    var outcome := db.RetryFailedJobItem(i, expectedJob);
    match outcome {
      case Success(id) => return Granted, Some(id);
      case Failure(refusal) => return NotRetryable(refusal), None;
    }
  }

  /** In every reachable state a retry passes admission exactly if the item is a failed one of a done
      job and the model's limit is known and large enough. The request format has never changed. */
  lemma AdmissionIsExact(env: Env, s: State, i: int, expectedJob: Option<int>, limitKnown: bool, admits: bool)
    requires Reachable(env, s) && Backed(s.db.jobs.rows, s.db.items.rows, i)
    ensures var item := s.db.items.rows[i];
      Admission(env, s.db, i, expectedJob, limitKnown, admits) ==
        if expectedJob.Some? && item.jobId != expectedJob.value then NotRetryable(ItemJobMismatch)
        else if item.status != Failed || s.db.jobs.rows[item.jobId].status != JobDone then NotRetryable(StaleOrSuperseded)
        else if !limitKnown then LimitUnknown
        else if !admits then OverBudget
        else Granted
  {
    hide Inv, Reachable, StillMatches, Resolve;
    ReachableInv(env, s);
    BackedMatches(env, s, i);
    BackedFacts(env, s, i);
  }

  lemma BackedFacts(env: Env, s: State, i: int)
    requires Inv(env, s) && Backed(s.db.jobs.rows, s.db.items.rows, i)
    ensures var item, job := s.db.items.rows[i], s.db.jobs.rows[s.db.items.rows[i].jobId];
      && job.promptId in s.db.prompts.rows && |job.snapshot| == job.snapshotCount.value
      && |Resolve(s.db.entries.rows, job.snapshot)| == |job.snapshot|
      && PreparedOf(item).Some? && ProperTarget(item, job.snapshot)
  {
    hide EntriesValid, PromptsValid, ResultsValid, OneRunning, BaselinesOk, TargetsDistinct, HistoryOrdered, HistoryOk, ChatOk, Attended, Matches;
  }

  /** Admission refuses with a changed format only for an item that no run can reach: never. */
  lemma FormatChangedIsUnreachable(env: Env, s: State, i: int, expectedJob: Option<int>, limitKnown: bool, admits: bool)
    requires Reachable(env, s)
    ensures Admission(env, s.db, i, expectedJob, limitKnown, admits) != FormatChanged
  {
    hide Inv, Reachable, StillMatches, Resolve;
    if Backed(s.db.jobs.rows, s.db.items.rows, i) {
      AdmissionIsExact(env, s, i, expectedJob, limitKnown, admits);
    }
  }

  /** The prompt an item's job was admitted under. */
  function PromptOf(db: Db, i: int): Option<Prompt>
    requires Backed(db.jobs.rows, db.items.rows, i)
  {
    var id := db.jobs.rows[db.items.rows[i].jobId].promptId;
    if id in db.prompts.rows then Some(db.prompts.rows[id]) else None
  }

  lemma GrantedIsBacked(env: Env, db: Db, i: int, expectedJob: Option<int>)
    requires Admission(env, db, i, expectedJob, true, true) == Granted
    ensures Backed(db.jobs.rows, db.items.rows, i) && PromptOf(db, i).Some?
  {
    hide StillMatches, Resolve, ProperTarget, PreparedOf;
  }

  lemma RetriedIsBacked(db: Db, i: int, expectedJob: Option<int>)
    requires Retry(db, i, expectedJob).1.Success?
    ensures Backed(db.jobs.rows, db.items.rows, i)
  {
  }

  lemma SamePrompt(db: Db, later: Db, i: int)
    requires Grows(db, later) && Backed(db.jobs.rows, db.items.rows, i) && Backed(later.jobs.rows, later.items.rows, i)
    requires PromptOf(db, i).Some?
    ensures later.items.rows[i].jobId == db.items.rows[i].jobId && PromptOf(later, i) == PromptOf(db, i)
  {
    assert SameWork(db.items.rows[i], later.items.rows[i]);
    var job := db.items.rows[i].jobId;
    assert job in db.jobs.rows && job in later.jobs.rows;
    assert db.jobs.rows[job].promptId in db.prompts.rows;
  }

  /** Whatever happens during the wait, the request that is requeued is the one the limit admitted:
      same identity, same prompt, still matching what is stored. */
  lemma RequeuedIsWhatWasAdmitted(env: Env, s: State, actions: seq<Action>, i: int, expectedJob: Option<int>)
    requires Reachable(env, s) && Admission(env, s.db, i, expectedJob, true, true) == Granted
    ensures var later := Run(env, s, actions).db;
      Retry(later, i, expectedJob).1.Success? ==>
        && Backed(s.db.jobs.rows, s.db.items.rows, i) && Backed(later.jobs.rows, later.items.rows, i)
        && Rebuilt(env, later, i) == Rebuilt(env, s.db, i) == StoredIdentity(later.items.rows[i])
        && later.items.rows[i].jobId == s.db.items.rows[i].jobId
        && PromptOf(later, i) == PromptOf(s.db, i) != None
  {
    hide Inv, Reachable, Admission, Run, Rebuilt, Retry, Grows, PromptOf;
    var later := Run(env, s, actions).db;
    if Retry(later, i, expectedJob).1.Success? {
      ReachableInv(env, s);
      GrantedIsBacked(env, s.db, i, expectedJob);
      RetriedIsBacked(later, i, expectedJob);
      RunGrows(env, s, actions);
      ReplayStability(env, s, actions, i);
      SamePrompt(s.db, later, i);
    }
  }
}
