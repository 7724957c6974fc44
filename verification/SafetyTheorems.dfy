/** What the generation-safety protocol guarantees over whole runs: any interleaving of routes,
    worker item tasks, maintenance commands, crashes and restarts, from any startable database. */
module SafetyTheorems {
  import opened Tables
  import opened TargetKeys
  import opened Archive
  import opened Store
  import opened GenerationSafety
  import opened SafetyInvariant
  import opened SafetySteps
  import opened WorkSteps
  import opened StartupRecovery

  // ------------------------------------------------------------------ the invariant is inductive

  lemma UnlockStep(env: Env, s: State)
    requires Inv(env, s)
    ensures Inv(env, s.(db := UnlockIfIdle(s.db).0))
  {
    hide Inv, Idle;
    if Idle(s.db) {
      SetLockedStep(env, s, false);
    } else {
      assert s.(db := UnlockIfIdle(s.db).0) == s;
    }
  }

  lemma CrashStep(env: Env, s: State)
    requires Inv(env, s)
    ensures Inv(env, s.(live := Down))
  {
    hide Stored, Attended;
  }

  lemma OfflineStep(env: Env, s: State, a: Action)
    requires Inv(env, s)
    ensures Inv(env, ApplyOffline(s, a))
  {
    hide Inv, DoRestart, UnlockIfIdle;
    match a {
      case AddEntry(date, title, text) => AddEntryStep(env, s, date, title, text);
      case Lock => SetLockedStep(env, s, true);
      case Unlock => UnlockStep(env, s);
      case Crash => CrashStep(env, s);
      case Restart => if s.live.Down? { RestartStep(env, s); }
      case _ =>
    }
  }

  lemma OnlineStep(env: Env, s: State, a: Action)
    requires Inv(env, s) && s.live.Up? && s.db.entries.Valid()
    ensures Inv(env, ApplyOnline(env, s, a))
  {
    hide Inv, DoRestart, UnlockIfIdle, ApplyOffline, Table.Valid, DeleteSession, ActivatePrompt;
    hide DoStartReport, DoSaveReport, DoStartTurn, DoAsk, DoAnswer, DoStartRequest, DoHandOff, DoRelease, DoPrepareOne, DoPrepareAll;
    hide DoSubmit, DoLoad, DoLearnLimit, DoClaim, DoEndClaims, DoBegin, DoSettle, DoFree, DoFinish, DoRetry;
    match a {
      case ApplyPrompt(body, model) => ApplyPromptStep(env, s, body, model);
      case StartReport => StartReportStep(env, s);
      case SaveReport(act, text) => SaveReportStep(env, s, act, text);
      case StartTurn(thread) => StartTurnStep(env, s, thread);
      case Ask(act, text) => AskStep(env, s, act, text);
      case Answer(act, text) => AnswerStep(env, s, act, text);
      case StartRequest(token) => StartRequestStep(env, s, token);
      case HandOff(act, title, text) => HandOffStep(env, s, act, title, text);
      case Release(act) => ReleaseStep(env, s, act);
      case RemoveSession(session) => RemoveSessionStep(env, s, session);
      case PrepareOne(entry) => PrepareOneStep(env, s, entry);
      case PrepareAll(draft) => PrepareAllStep(env, s, draft);
      case Submit(prep) => SubmitStep(env, s, prep);
      case Load(job) => LoadStep(env, s, job);
      case LearnLimit(job, known, admits) => LearnLimitStep(env, s, job, known, admits);
      case Claim(item) => ClaimStep(env, s, item);
      case EndClaims(job) => EndClaimsStep(env, s, job);
      case Begin(item) => BeginStep(env, s, item);
      case Settle(item, text) => SettleStep(env, s, item, text);
      case Free(item) => FreeStep(env, s, item);
      case Finish(job) => FinishStep(env, s, job);
      case RetryItem(item, expectedJob) => RetryStep(env, s, item, expectedJob);
      case _ => OfflineStep(env, s, a);
    }
  }

  lemma ApplyInv(env: Env, s: State, a: Action)
    requires Inv(env, s)
    ensures Inv(env, Apply(env, s, a))
  {
    hide Inv, ApplyOnline, ApplyOffline, Table.Valid;
    if s.live.Up? && s.db.entries.Valid() {
      OnlineStep(env, s, a);
    } else {
      OfflineStep(env, s, a);
    }
  }

  /** The invariant holds after every run from every startable database. */
  lemma {:induction false} RunInv(env: Env, s: State, actions: seq<Action>)
    requires Initial(s)
    ensures Inv(env, Run(env, s, actions))
  {
    hide Inv, Apply, Initial;
    if actions == [] {
      InitialInv(env, s);
    } else {
      var n := |actions| - 1;
      RunInv(env, s, actions[..n]);
      ApplyInv(env, Run(env, s, actions[..n]), actions[n]);
    }
  }
}
