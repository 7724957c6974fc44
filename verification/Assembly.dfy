/** The request assembly code itself, as the assembler the generation-safety protocol is
    parameterised by, and what replay stability says about its envelopes. */
module Assembly {
  import opened Tables
  import opened Archive
  import opened Store
  import opened Envelope
  import opened GenerationSafety
  import opened SafetyInvariant
  import opened StartupRecovery
  import opened SafetyTheorems
  import opened Guarantees
  import opened History
  import opened RequestContent
  import TargetKeys

  function CommentaryEnvelope(tasks: Instructions, entry: Entry, all: seq<Entry>, prompt: Prompt): Result<RequestEnvelope, ContentError> {
    match CommentaryContent(entry, all, prompt.body, tasks)
    case Failure(e) => Failure(e)
    case Success(c) => Success(BuildEnvelope(c.system, c.user, prompt.model, "entry_commentary", Some(entry.id)))
  }

  function ReportEnvelope(tasks: Instructions, all: seq<Entry>, prompt: Prompt): RequestEnvelope {
    var c := ReportContent(all, prompt.body, tasks);
    BuildEnvelope(c.system, c.user, prompt.model, "aggregate_report", None)
  }

  /** The envelope for one target of an archive, if there is one: the entry must be listed, and the
      list in canonical order. */
  function EnvelopeFor(tasks: Instructions, all: seq<Entry>, prompt: Prompt, targetType: TargetType, entryId: Option<int>): Option<RequestEnvelope> {
    match targetType
    case AggregateReport => Some(ReportEnvelope(tasks, all, prompt))
    case EntryCommentary =>
      if entryId.None? || IndexOf(entryId.value, all) == |all| then None
      else
        match CommentaryEnvelope(tasks, all[IndexOf(entryId.value, all)], all, prompt)
        case Failure(_) => None
        case Success(e) => Some(e)
  }

  /** How every request of this program is made to the model: the system text replaces the SDK's own,
      there are no tools, and nothing of the host is picked up. */
  predicate Isolated(e: RequestEnvelope) {
    && e.assemblyVersion == ASSEMBLY_VERSION && e.systemMode == "replace" && e.availableTools == [] && e.workingDirectory == "/tmp"
    && e.skipCustomInstructions && !e.enableConfigDiscovery && !e.enableSkills && e.streaming
  }

  /** What the envelope of a target carries where: the persona and the task are the system part, the
      entries the user part, under the prompt's own model and the target's own name. A report can
      always be assembled, a reflection exactly for an entry of a list in order. */
  lemma EnvelopeCarries(tasks: Instructions, all: seq<Entry>, prompt: Prompt, targetType: TargetType, entryId: Option<int>) returns (at: nat)
    ensures var e := EnvelopeFor(tasks, all, prompt, targetType, entryId);
      && (targetType == AggregateReport ==> e.Some?)
      && (targetType == EntryCommentary ==>
            (e.Some? <==> (forall i :: 0 <= i < |all| - 1 ==> !Before(all[i + 1], all[i])) && exists x :: x in all && Some(x.id) == entryId))
      && (e.Some? ==> Isolated(e.value) && e.value.model == prompt.model)
      && (e.Some? && targetType == AggregateReport ==>
            && e.value.targetKind == "aggregate_report" && e.value.targetId == None
            && e.value.systemContent == prompt.body + "\n\n" + tasks.report
            && e.value.userContent == REPORT_HEADING + Corpus(all))
      && (e.Some? && targetType == EntryCommentary ==>
            && at < |all| && Some(all[at].id) == entryId
            && e.value.targetKind == "entry_commentary" && e.value.targetId == Some(TargetKeys.Decimal(all[at].id))
            && e.value.systemContent == prompt.body + "\n\n" + tasks.perEntry
            && e.value.userContent == AS_OF_HEADING + (Corpus(all[..at + 1]) + (SEPARATOR + Instruction(at + 1, all[at].title))))
  {
    hide Corpus, Instruction, Before, CommentaryContent;
    at := 0;
    if targetType == EntryCommentary && entryId.Some? {
      var i := IndexOf(entryId.value, all);
      if i < |all| {
        assert all[i] in all && Some(all[i].id) == entryId;
        at := CommentaryContentIs(all[i], all, prompt.body, tasks);
      } else {
        forall x | x in all ensures x.id != entryId.value {
          var j :| 0 <= j < |all| && all[j] == x;
        }
      }
    }
  }

  /** Assembly version and fingerprint of that envelope. */
  function Assembled(sha: Digest, tasks: Instructions): Assembler {
    (all: seq<Entry>, prompt: Prompt, targetType: TargetType, entryId: Option<int>) =>
      match EnvelopeFor(tasks, all, prompt, targetType, entryId)
      case None => None
      case Some(e) => Some((e.assemblyVersion, Fingerprint(sha, e)))
  }

  /** The envelope of item i, rebuilt from its job's prompt and stored snapshot. */
  function RebuiltEnvelope(tasks: Instructions, db: Db, i: int): Option<RequestEnvelope> {
    if i in db.items.rows && db.items.rows[i].jobId in db.jobs.rows && db.jobs.rows[db.items.rows[i].jobId].promptId in db.prompts.rows then
      var job := db.jobs.rows[db.items.rows[i].jobId];
      EnvelopeFor(tasks, Resolve(db.entries.rows, job.snapshot), db.prompts.rows[job.promptId],
                  db.items.rows[i].targetType, db.items.rows[i].entryId)
    else None
  }

  /** In every reachable state, rebuilding the envelope of an item succeeds and it matches the stored
      assembly version and fingerprint: a changed request format is unreachable with this code. */
  lemma RebuiltEnvelopeMatches(sha: Digest, tasks: Instructions, concurrency: nat, s: State, i: int)
    requires var env := Env(Assembled(sha, tasks), concurrency);
      Reachable(env, s) && Backed(s.db.jobs.rows, s.db.items.rows, i)
    ensures RebuiltEnvelope(tasks, s.db, i).Some?
    ensures var e, item := RebuiltEnvelope(tasks, s.db, i).value, s.db.items.rows[i];
      && e.assemblyVersion == ASSEMBLY_VERSION
      && item.formatVersion.Some? && item.fingerprint.Some?
      && MatchesStoredAssembly(sha, e, item.formatVersion.value, item.fingerprint.value)
  {
    hide Inv, Reachable, Resolve, CanonicalJson, CommentaryContent, ReportContent;
    var env := Env(Assembled(sha, tasks), concurrency);
    ReachableInv(env, s);
    BackedMatches(env, s, i);
    EnvelopeVersion(tasks, Resolve(s.db.entries.rows, s.db.jobs.rows[s.db.items.rows[i].jobId].snapshot),
                    s.db.prompts.rows[s.db.jobs.rows[s.db.items.rows[i].jobId].promptId], s.db.items.rows[i].targetType, s.db.items.rows[i].entryId);
    hide EnvelopeFor;
  }

  lemma EnvelopeVersion(tasks: Instructions, all: seq<Entry>, prompt: Prompt, targetType: TargetType, entryId: Option<int>)
    ensures EnvelopeFor(tasks, all, prompt, targetType, entryId).Some? ==>
      EnvelopeFor(tasks, all, prompt, targetType, entryId).value.assemblyVersion == ASSEMBLY_VERSION
  {
    hide CommentaryContent, ReportContent;
  }

  /** The very request admitted is the one replayed, text by text: over any continuation of a run
      the rebuilt envelope is the same envelope. */
  lemma ReplayedEnvelopeIsTheSame(env: Env, tasks: Instructions, s: State, actions: seq<Action>, i: int)
    requires Reachable(env, s) && Backed(s.db.jobs.rows, s.db.items.rows, i)
    requires i in Run(env, s, actions).db.items.rows
    ensures RebuiltEnvelope(tasks, Run(env, s, actions).db, i) == RebuiltEnvelope(tasks, s.db, i)
  {
    hide Inv, Reachable, Run, Resolve, EnvelopeFor;
    ReachableInv(env, s);
    RunGrows(env, s, actions);
    var later := Run(env, s, actions).db;
    var j := s.db.items.rows[i].jobId;
    SnapshotKnown(env, s, j);
    ResolveStable(s.db.entries.rows, later.entries.rows, s.db.jobs.rows[j].snapshot);
    PromptKept(s.db.prompts.rows, later.prompts.rows, s.db.jobs.rows[j].promptId);
  }

  lemma PromptKept(prompts: map<int, Prompt>, later: map<int, Prompt>, id: int)
    requires Extends(prompts, later) && id in prompts
    ensures id in later && later[id] == prompts[id]
  {
  }

  lemma SnapshotKnown(env: Env, s: State, j: int)
    requires Inv(env, s) && j in s.db.jobs.rows && s.db.jobs.rows[j].snapshotCount.Some?
    ensures Known(s.db.entries.rows, s.db.jobs.rows[j].snapshot) && s.db.jobs.rows[j].promptId in s.db.prompts.rows
  {
    hide EntriesValid, PromptsValid, ResultsValid, OneRunning, ItemsOk, BaselinesOk, TargetsDistinct, HistoryOrdered, HistoryOk, ChatOk, Attended;
  }

  /** Writing an entry that falls after the target leaves the target's envelope as it was. */
  lemma LaterEntryKeepsEnvelope(tasks: Instructions, entries: Table<Entry>, added: Entry, target: int, prompt: Prompt)
    requires entries.Valid() && KeyedById(entries.rows) && target in entries.rows
    requires added.id == entries.next && Before(entries.rows[target], added)
    ensures CommentaryEnvelope(tasks, entries.rows[target], LiveArchive(entries.Insert(added)), prompt)
         == CommentaryEnvelope(tasks, entries.rows[target], LiveArchive(entries), prompt)
  {
    LaterEntryIsInvisible(entries, added, target, prompt.body, tasks);
  }
}
