# Unflincher: verified models

Unflincher keeps a journal in SQLite and asks a language model to write about it: an Entry
Reflection per entry, a Life Report over all of them, conversations about either. This project
models the parts whose correctness no single function shows, and proves what they promise.

Three groups of modules:

* **Generation safety.** `Store` gives every write transaction as a function of the database it
  finds. `GenerationSafety` puts them into one state machine with all a live process remembers:
  requests holding leases, prepared batches, workers and item tasks. Its 27 kinds of step (one
  transaction or autocommitted statement each, with the bookkeeping up to the next await) interleave
  freely with crashes and restarts. `SafetyInvariant` states the inductive invariant,
  `SafetySteps`, `WorkSteps` and `StartupRecovery` show that each step keeps it, and
  `SafetyTheorems`, `History`, `Guarantees`, `Admissions`, `WorkerProgress`, `ChatThreads` and
  `Maintenance` draw the conclusions for every run, and `Effects` says what single steps come to.
  `Database`, `BatchWorker`, `RegenEnqueue`,
  `RetryAdmission` and `Routes` are the imperative code, loops and rollbacks included, proved
  against the functions of `Store`; what `BatchWorker.RunJob` does is moreover tied, stage by stage,
  to reachable states of the protocol.
* **The shared client.** `ClientLifecycle` is the condition-variable protocol of any number of
  callers (streams, model-list reads, refreshes, shutdowns), a step being what one caller does
  between two awaits; sleeping and waking are explicit. `ClientTheorems` holds its safety, deadlock
  freedom and termination, `ClientOwnership` that no client process is ever lost. `CompletionStream` is the retry loop around one stream.
* **What they rest on.** `Archive` (canonical order, snapshots, as-of context), `RequestContent` (what
  a request contains), `Envelope`, `JsonForm` and `Assembly` (canonical JSON and stored identities),
  `Budget`, `ResultSelection`, `Upgrade`, `SseFrames`, `Texts`, `TargetKeys`, and the shared `Tables`
  and `Totals`.

To verify: `dafny verify dfyconfig.toml`.

Readings that matter:

* A table is a map from ids to rows with the next AUTOINCREMENT id, which never goes back. A unique
  index or foreign key is a check that fails the transaction; a rollback restores the state the
  transaction began with.
* `Reachable(env, s)` means: some run from some startable database ends in `s`. A startable database
  has well-formed tables, at most one running job, chats made of turns, any legacy jobs and any
  leftover leases, and no snapshot-backed job yet. `env` is any assembly function and any
  concurrency, so the theorems hold for the assembly code of `Assembly` in particular.
* Fields called `holder`, `turn` and `history` are recorded for the statements' sake; no transaction
  reads them.
* The 1.15 safety margin is computed in doubles; the model takes any monotone margin between the
  raw estimate and 23/20 of it.
* `estimate_tokens` documents `max(1, ...)`; it never takes effect, because half a byte already
  rounds up to one token, so the model leaves it out.
* The server is meant to refuse a half-upgraded database. It does until the last column is there, but
  the prune of old reflections comes after that and nothing the server looks at records it:
  `ServerStartsFromTheLastColumnOn` states when it starts, `UnfinishedUpgradeIsServed` gives an input,
  `StartsOnlyFinishedExactlyIf` says for which databases that cannot happen.
* The comment above `parseSseFrame` promises the data back; that holds exactly for data without
  carriage returns, since the server also ends lines at those. `FrameReadsBack` states the
  equivalence and `CarriageReturnIsLost` gives an input.

## Model

| member | source | states |
|---|---|---|
| `SafetyTheorems.RunInv` | src/unflincher/db.py:12-29 | The protocol invariant holds after every run (any interleaving of routes, item tasks, maintenance commands, crashes, restarts) from every startable database. |
| `SafetyTheorems.ApplyInv` | src/unflincher/db.py:1975-2364 | Every single step, of all 27 kinds, keeps the invariant. |
| `History.StepGrows` | src/unflincher/db.py:1254-1286 | No step takes back an entry, a prompt, a job's prompt or snapshot, an item's recorded identity or a finished item; a step inserts at most one result row, and only for the item it settles or the report it saves. |
| `History.RunGrows` | src/unflincher/db.py:1975-2078 | The same over any continuation of a run. |
| `Guarantees.NoLostUpdate` | src/unflincher/db.py:2032-2072 | While a process is up, every unfinished item has its target's lease held on its own behalf, and the target's current result is still the baseline recorded at admission. |
| `Guarantees.CompletionSupersedesBaseline` | src/unflincher/db.py:1254-1286 | A completion moves its target's current result from exactly the baseline to the new row (entry, prompt and text as generated) and no other target's current result. |
| `Guarantees.FreeReleasesOwnLease` | src/unflincher/worker.py:308-313 | Releasing by target at the end of an item removes exactly the lease row inserted for that item. |
| `Guarantees.RouteReleasesOwnLease` | src/unflincher/db.py:1722-1724 | Releasing by id at the end of a request removes exactly the lease row inserted for that request. |
| `Effects.ReportIsRequested` | src/unflincher/routes/report.py:123-140 | A report request is let in exactly if maintenance is off and nobody works on the report; it remembers the prompt active at that moment. |
| `Effects.SavedReportIsCurrent` | src/unflincher/routes/report.py:150-164 | A saved report is the streamed text under the remembered prompt and the report's current result; everything else stays; it is saved once. |
| `Effects.TurnStarts` | src/unflincher/routes/chat.py:275-300 | A turn is let in exactly if the thread exists, maintenance is off and nobody else is at it. |
| `Effects.PreparedBatchIs` | src/unflincher/regen_enqueue.py:114-140 | Preparing an apply-all batch writes nothing, and comes off exactly if every entry's request and the report's can be assembled from the archive as it is. |
| `Effects.PreparedReflectionIs` | src/unflincher/regen_enqueue.py:40-75 | The same for one entry's reflection. |
| `Effects.SubmittedBatchRuns` | src/unflincher/db.py:1975-2078 | A granted batch becomes the running job with a scheduled worker and exactly one fresh item per target; a refused one changes nothing in the database. |
| `Effects.BatchLeasesAre` | src/unflincher/db.py:2032-2050 | A granted batch holds one background lease per target, on behalf of the item inserted for that target, and no other new one. |
| `Effects.CompletionReplaces` | src/unflincher/db.py:1254-1286 | A completed reflection replaces every earlier one of its entry and no other; a completed report is added to the earlier ones. |
| `Effects.SetupChecksTheJob` | src/unflincher/worker.py:54-145 | The worker's setup goes on, in whatever state, exactly if the job has its prompt and a whole snapshot of existing entries; otherwise the job is cancelled with its unfinished items and their leases. |
| `Effects.ChangedRequestIsNeverSent` | src/unflincher/worker.py:290-330 | An item whose rebuilt request is not the one admitted fails, with an error recorded and the attempt counted, in whatever state, and nothing else of the database changes. |
| `Effects.RecoveredJobIsChecked` | src/unflincher/worker.py:210-243 | A recovered job with a changed request, or without a sufficient limit, is cancelled before any request is sent. |
| `Guarantees.NoLeakedLease` | src/unflincher/db.py:1680-1701 | Every lease row belongs to an unfinished or settling item or to a live request, under its own key. |
| `Guarantees.TargetsNeverShared` | src/unflincher/db.py:2032-2040 | No two unfinished items have the same target. |
| `WorkSteps.ClaimTargetsFacts` | src/unflincher/db.py:2032-2040 | Claiming a batch gives one new lease per target, none of them leased before, no two under one key, and touches no other. |
| `WorkSteps.AddItemsFacts` | src/unflincher/db.py:2061-2072 | Inserting a batch adds exactly one pending item per target, in order, with the baseline of that moment, and changes no old item. |
| `WorkSteps.EnqueueFacts` | src/unflincher/db.py:1975-2078 | A granted batch adds one running job with the whole ordered archive as its snapshot, one pending item and one lease per target, the activated prompt if any, and nothing else. |
| `Admissions.ClaimSucceedsExactly` | src/unflincher/db.py:2032-2040 | A batch gets its leases exactly if all its targets are free and different; the refusal names one of its targets. |
| `Admissions.EnqueueExactlyWhen` | src/unflincher/db.py:2018-2078 | A batch is admitted exactly if maintenance is off, the archive is the one it was prepared from, its targets are free and different, prompt and entries exist and no job runs; otherwise nothing is written. |
| `Admissions.RefusalOfEnqueue` | src/unflincher/db.py:2011-2072 | Which refusal a batch gets: maintenance first, then a changed archive, then a busy target, a broken reference or a running job last. |
| `Admissions.RetryExactlyWhen` | src/unflincher/db.py:2085-2196 | A failed item is requeued exactly if its job is done, nothing superseded it, its target is free, no other job runs and maintenance is off; its stored identity is never the obstacle. Then item, lease and job change together; otherwise nothing does. |
| `Admissions.RefusalOfRetry` | src/unflincher/db.py:2085-2180 | Which refusal a retry gets. |
| `Admissions.RefusalIsExact` | src/unflincher/worker.py:245-270 | Refusing a job cancels it and takes away exactly its unfinished items and exactly their leases. |
| `Guarantees.ReplayStability` | src/unflincher/worker.py:315-329 | Whatever happens after admission, rebuilding an item's request from its job's prompt and stored snapshot gives the identity stored with it. |
| `Guarantees.SetupNeverRefuses` | src/unflincher/worker.py:86-117 | The checks of `run_job` before any claim always pass: prompt, snapshot and every snapshotted entry are still there. |
| `Guarantees.RefusedOnlyForTheLimit` | src/unflincher/worker.py:119-141 | A recovered job is cancelled exactly if the model limit is unknown or too small, an ordinary one never; a changed request format is never the reason. |
| `Guarantees.SettleOutcome` | src/unflincher/worker.py:290-313 | A generation that ends with a text is saved exactly if the limit was known; otherwise its item, and only it, fails and counts an attempt. |
| `Guarantees.SnapshotsStaySubsequences` | src/unflincher/db.py:1887-1893 | Every stored snapshot is a strictly increasing subsequence of the archive as it is at any later time. |
| `Guarantees.ItemEntryIsSnapshotMember` | src/unflincher/db.py:2055-2059 | The entry of an Entry Reflection item is a member of its own job's snapshot and still exists. |
| `Assembly.RebuiltEnvelopeMatches` | src/unflincher/request_envelope.py:129-141 | With the real assembly code, the envelope rebuilt for an item in any reachable state matches the stored assembly version and fingerprint. |
| `Assembly.ReplayedEnvelopeIsTheSame` | src/unflincher/worker.py:331-335 | Over any continuation of a run the rebuilt envelope is the same envelope, text by text. |
| `Assembly.LaterEntryKeepsEnvelope` | src/unflincher/llm.py:470-472 | Writing an entry that falls after the target leaves the target's envelope as it was. |
| `Assembly.EnvelopeCarries` | src/unflincher/llm.py:470-477 | What the envelope of a target carries where: persona and task in the system part, the entries in the user part, the prompt's own model, the target's name, no tools, nothing of the host; when a request can be assembled at all. |
| `RetryAdmission.RetryJobItemWithAdmission` | src/unflincher/regen_enqueue.py:162-270 | Every read-only check in order, writing nothing when one refuses; then exactly the retry transaction, on whatever other requests have left during the wait for the limit. |
| `RetryAdmission.RequeuedIsWhatWasAdmitted` | src/unflincher/regen_enqueue.py:254-270 | Whatever runs during the wait for the limit, an item that is then requeued has the identity and the prompt the limit admitted, and still matches what is stored. |
| `RetryAdmission.AdmissionIsExact` | src/unflincher/regen_enqueue.py:162-270 | In every reachable state a retry passes admission exactly if the item is a failed one of a done job, of the expected job, and the model limit is known and large enough. |
| `RetryAdmission.FormatChangedIsUnreachable` | src/unflincher/regen_enqueue.py:254-262 | No run reaches a state in which retry reports a changed request format. |
| `Guarantees.OkExactlyIfRecorded` | src/unflincher/db.py:1254-1286 | An item is ok exactly if one result row was ever inserted for it, and it names that row; otherwise none was. |
| `Guarantees.AtMostOneResult` | src/unflincher/db.py:1254-1286 | Over any run no item contributes a second result row. |
| `Guarantees.OkInTheSameStep` | src/unflincher/db.py:1254-1286 | The step that makes an item ok is the step that inserts its row, and no other step inserts a row for it. |
| `Guarantees.ResultsAreNotShared` | src/unflincher/db.py:1279-1282 | Two ok items of a kind never name the same result row. |
| `SafetySteps.CurrentAfterInsert` | src/unflincher/db.py:1958-1973 | A fresh successful row becomes its target's current result and nobody else's. |
| `WorkSteps.CompletionResults` | src/unflincher/db.py:1274-1278 | Pruning an entry's older rows with the new one leaves every other entry's current result alone. |
| `Guarantees.UnfinishedOnlyInTheRunningJob` | src/unflincher/db.py:2210-2220 | At most one job runs, and unfinished items exist only in it: a done or cancelled job has none. |
| `WorkerProgress.WorkerStepsUseEffort` | src/unflincher/worker.py:143-154 | Every effective step of a worker or item task strictly lowers a measure: each pending item is claimed once, each task runs once. |
| `WorkerProgress.OthersAddNoEffort` | src/unflincher/worker.py:143-154 | No step of anybody else adds to that measure while the process lives. |
| `WorkerProgress.WorkerNeverStuck` | src/unflincher/worker.py:290-291 | A live worker can always take a step, if at least one item may generate at a time. |
| `WorkerProgress.WorkerCanFinish` | src/unflincher/worker.py:54-154 | From every reachable state the worker's own steps lead to its end. |
| `WorkerProgress.FinishedWorkerLeavesJobDone` | src/unflincher/worker.py:368-377 | The final count of unfinished items is always zero, so the job ends done. |
| `WorkerProgress.EndedJobsHoldNothing` | src/unflincher/worker.py:308-313 | Once a job no longer runs, its items are ok or failed and no lease is held for any of them. |
| `WorkerProgress.ConcurrencyRespected` | src/unflincher/worker.py:50-52 | At most `concurrency` items of a job are inside the semaphore. |
| `BatchWorker.BatchWorker.RunJob` | src/unflincher/worker.py:54-154 | Run to its end on the database: a recovered job without a sufficient limit is cancelled as a whole; otherwise the job is done, each of its items ok or failed by its own generation, exactly their leases gone, nothing else changed. |
| `BatchWorker.BatchWorker.ClaimAll` | src/unflincher/worker.py:143-151 | The claim loop claims every pending item exactly once and nothing else. |
| `BatchWorker.BatchWorker.Gather` | src/unflincher/worker.py:152-153 | The tasks, in any order and at most `concurrency` at a time, settle every claimed item as its generation says and free exactly its lease. |
| `BatchWorker.BatchWorker.ProcessItem` | src/unflincher/worker.py:290-313 | One item task: persist or fail, then free its target; it is two steps of the protocol. |
| `StartupRecovery.RecoveryCompleteAndExact` | src/unflincher/db.py:2258-2364 | From every stored state a run can crash in: exactly the running jobs with a snapshot resume, exactly those without are cancelled, no item stays running, each unfinished item gets exactly one lease and nobody else has one, everything finished is untouched, and the discarded count is exact. The busy and invalid-identity branches are unreachable. |
| `StartupRecovery.ReacquireAll` | src/unflincher/db.py:2331-2341 | Over a cleared lease table reacquiring never meets a busy target. |
| `StartupRecovery.SnapshotStillValid` | src/unflincher/db.py:2223-2255 | The defensive snapshot check passes in every reachable state. |
| `StartupRecovery.ResumedOnlyIfIntact` | src/unflincher/db.py:2290-2340 | In whatever state the database is found, a job is resumed only with its prompt, a whole snapshot of existing entries, and proper identities for its unfinished items; otherwise it is cancelled. |
| `Guarantees.RecoveryAfterAnyRun` | src/unflincher/db.py:2258-2364 | The same after any run that ends in a crash, with one relaunched worker per resumed job. |
| `ChatThreads.ThreadsAreTurns` | src/unflincher/routes/chat.py:290-339 | In every reachable state each thread is a list of whole turns (a question, or a question and its own request's reply) of different requests, and a conversation with messages exists. |
| `ChatThreads.ConversationLeaseIsLive` | src/unflincher/db.py:1770-1817 | Every lease on a conversation names an existing conversation. |
| `ChatThreads.ReplyFollowsItsQuestion` | src/unflincher/routes/chat.py:325-337 | A reply goes directly after its own question, in a thread that still exists. |
| `ChatThreads.LiveThreadIsNotDeleted` | src/unflincher/db.py:923-956 | A conversation with a turn in progress cannot be deleted. |
| `ChatThreads.DeletionIsExact` | src/unflincher/db.py:923-956 | A conversation nobody works on is deleted with its messages, whether locked or not, and nothing else is; the lease table is left as it was. |
| `ChatThreads.OneTurnPerThread` | src/unflincher/routes/entry.py:170-176 | Two live requests never work on the same thread. |
| `ChatThreads.HandOffAlwaysSucceeds` | src/unflincher/db.py:1770-1817 | The handoff of a new conversation is never refused, and creates session, first message and converted lease together. |
| `TargetKeys.RenderInjective` | src/unflincher/db.py:1654-1677 | Distinct targets have distinct lease keys as text, whatever the ids and tokens: the unique column is unique per target. |
| `Routes.TriggerReport` | src/unflincher/routes/report.py:123-166 | A report is saved exactly if its stream completed, under the prompt active at the start, and is the streamed tokens joined in order; the lease is given back on every ending. |
| `Routes.SendMessage` | src/unflincher/routes/chat.py:275-339 | The question is stored only once the request fits, the reply only if the stream completed, directly after it, as the streamed tokens joined in order; the lease is given back on every ending. Entry threads run the same way. |
| `Routes.SendNewSessionMessage` | src/unflincher/routes/chat.py:183-271 | A request that does not fit or loses its lease creates no session; otherwise session, question and, if its stream completed, reply appear, renamed exactly if the title task beside it has produced a title; both leases are given back on every ending, whenever the title's comes and goes. |
| `Routes.StreamReply` | src/unflincher/routes/chat.py:80-111 | The stream with its title task: a lock set meanwhile skips the title, a cancelled or failed task leaves the date title, its lease is given back in every order. |
| `Texts.TextIsTheTokens` | src/unflincher/routes/chat.py:243-245 | A text is what is collected from a stream exactly if it falls into the tokens, one piece each, in order, without gaps. |
| `Texts.ChunkStands` | src/unflincher/routes/report.py:150-158 | Each token stands directly after the tokens before it. |
| `Routes.GeneratedIsTheTokens` | src/unflincher/routes/chat.py:100-111 | A title comes of a task exactly if its generation fits, completes and is not blank; it is the tokens joined, without the space around them. |
| `Texts.StrippedIsTheMiddle` | src/unflincher/routes/chat.py:110-110 | Stripping takes nothing but space, and only from the two ends. |
| `Maintenance.LockedStepDrains` | src/unflincher/db.py:1590-1651 | While locked, no step but startup recovery and the unlock adds a lease or a running job. |
| `Effects.LockedUntilUnlocked` | src/unflincher/db.py:1549-1565 | Locking sets the flag, and no other step, crash or restart clears it before an unlock. |
| `Maintenance.LockedIdleIsStable` | src/unflincher/db.py:1622-1630 | Locked and idle stays so over any run without an unlock, crashes and restarts included. |
| `Maintenance.IdleExactlyWhenUnoccupied` | src/unflincher/db.py:1622-1630 | While a process is up the database is idle exactly if no request holds a lease and no worker is at work. |
| `Maintenance.UnlockExactlyWhenIdle` | src/unflincher/db.py:1632-1651 | Unlocking succeeds exactly when no request holds a lease and no worker is at work, and changes only the flag. |
| `Database.Database.EnqueueSnapshotRegenJob` | src/unflincher/db.py:1975-2078 | The transaction, statement by statement with its rollback, does all of it or nothing, in the order of its checks. |
| `Database.Database.AcquireTargets` | src/unflincher/db.py:2032-2040 | The lease loop stops at the first busy target. |
| `Database.Database.RetryFailedJobItem` | src/unflincher/db.py:2085-2196 | The checks of a retry in order; on success lease, item and job change together. |
| `Database.Database.CompleteJobItem` | src/unflincher/db.py:1254-1286 | Result row, prune and item status, or nothing if a foreign key fails. |
| `Database.Database.UnlockMaintenanceIfIdle` | src/unflincher/db.py:1632-1651 | Unlocking succeeds exactly if no job runs and nobody holds a lease; the flag is all it can change, and a refusal changes nothing. |
| `Database.Database.ClaimNextPending` | src/unflincher/worker.py:272-283 | Some pending item of the job becomes running, or there is none. |
| `Database.Database.CancelSetupFailure` | src/unflincher/worker.py:245-270 | Exactly the unfinished items' leases go, then those items, then the job is cancelled. |
| `Database.Database.RecoverOrCancelRunningJobs` | src/unflincher/db.py:2258-2364 | The recovery loops compute the recovery the theorems speak of. |
| `Database.Database.CreateSessionAndConvertLease` | src/unflincher/db.py:1770-1817 | Session, message and lease conversion, or nothing. |
| `Database.Database.DeleteChatSession` | src/unflincher/db.py:923-956 | Messages and session go and the lease table is left as it was, or nothing changes when the thread is held. |
| `RegenEnqueue.EnqueueJob` | src/unflincher/regen_enqueue.py:87-160 | The rebuild loop, with the writes of other requests at its await; a granted job consists of exactly the wanted items. |
| `RegenEnqueue.PrepareBatch` | src/unflincher/regen_enqueue.py:122-140 | On success there is one target per entry, in archive order, and the report at the end, each with the identity its request is assembled to; it fails exactly if one of these requests cannot be prepared. |
| `RegenEnqueue.PreparedAllIs` | src/unflincher/regen_enqueue.py:122-140 | The same of the function the protocol uses. |
| `RegenEnqueue.GrantedJobIsTheBatch` | src/unflincher/regen_enqueue.py:114-160 | A granted job runs over the archive of that moment, under the prompt asked for, with exactly one pending item per entry and one for the report (or the one entry asked for), each with its target's current result as baseline. |
| `RegenEnqueue.GivesUpOnlyIfAlwaysInterrupted` | src/unflincher/regen_enqueue.py:113-159 | The loop gives up with a changed archive exactly if every one of its attempts was prepared and interrupted by a write. |
| `RegenEnqueue.AdmissionIsAllOrNothing` | src/unflincher/regen_enqueue.py:92-159 | A refused admission has written nothing; a granted one has as snapshot exactly the archive at that moment. |
| `Archive.OrderedIdsCanonical` | src/unflincher/db.py:1835-1841 | The canonical order lists every entry once, strictly increasing under (entry_date, id), and is the only such list. |
| `Archive.Resolve` | src/unflincher/db.py:1896-1915 | Rows for exactly the given ids in the given order; the count tells whether all resolve. |
| `Archive.ResolveStable` | src/unflincher/db.py:1896-1915 | Ids resolve to the same list in every later archive. |
| `Archive.SnapshotIsSubsequence` | src/unflincher/db.py:1887-1893 | The order of an earlier archive is a strictly increasing subsequence of the order of a later one. |
| `Archive.AsOfNonInterference` | src/unflincher/llm.py:393-423 | Two archives in canonical order that agree through the target give the same Entry Reflection request. |
| `Archive.LaterEntryIsInvisible` | src/unflincher/llm.py:393-423 | Writing an entry that falls after the target never changes the target's request. |
| `RequestContent.CorpusHoldsEveryEntry` | src/unflincher/llm.py:386-390 | Each entry stands in the corpus under its number, with its day, title and own text; before it stand exactly the entries before it, set off by the separator, after it the others. |
| `RequestContent.CommentaryContentIs` | src/unflincher/llm.py:393-423 | A reflection request is refused exactly if the list is out of order or lacks the target; otherwise the system text is persona and task, and the user text holds exactly the corpus through the target and names the target's number and title. |
| `RequestContent.CommentaryHoldsEveryEntry` | src/unflincher/llm.py:409-423 | Every entry through the target stands in the target's request, set off on both sides, the target last, directly before the instruction. |
| `RequestContent.ReportHoldsEveryEntry` | src/unflincher/llm.py:426-429 | A report request carries persona and task, and every entry of the whole list with its own text. |
| `Archive.OrderedByDateThenId` | src/unflincher/db.py:1835-1850 | The order is by date, and among entries of one date by id. |
| `Archive.TextLessIs` | src/unflincher/db.py:1835-1850 | Text order: a proper beginning, or the smaller character at the first difference. |
| `ClientLifecycle.NextInv` | src/unflincher/llm.py:84-157 | Every step of every caller keeps the lifecycle invariant. |
| `ClientTheorems.CountsAreExact` | src/unflincher/llm.py:84-129 | Over every interleaving the count is the number of callers between admit and release, at most one caller is in a transition, exactly then the flag is set, and the semaphore bound holds. |
| `ClientTheorems.AdmittedClientIsLive` | src/unflincher/llm.py:84-96 | Whoever holds an admission works on the current client, under the current generation, and it was never stopped. |
| `ClientTheorems.StopsOnlyIdleClients` | src/unflincher/llm.py:132-157 | A client is stopped only while nobody holds an admission, and only if it was not stopped before. |
| `ClientTheorems.EachClientStoppedOnce` | src/unflincher/llm.py:132-157 | Over a whole run no client is stopped twice. |
| `ClientTheorems.SameGenerationSameClient` | src/unflincher/llm.py:26-29 | Equal generation numbers mean the same client, at any two times of a run. |
| `ClientTheorems.ReplacesOnlyTheObservedClient` | src/unflincher/llm.py:141-151 | A failing stream takes down only the client it used; if another caller replaced it, nothing is stopped. |
| `ClientTheorems.SomebodyCanMove` | src/unflincher/llm.py:108-157 | Deadlock freedom: while any caller is unfinished some caller can take a step. |
| `ClientTheorems.EffectiveRunsAreShort` | src/unflincher/llm.py:99-117 | No schedule has more effective steps than a measure of its start: waiters cannot wake each other for ever. |
| `ClientTheorems.EverybodyFinishes` | src/unflincher/llm.py:170-183 | From every reachable state all callers can be brought to their end. |
| `ClientOwnership.NoOrphanClient` | src/unflincher/llm.py:60-240 | No orphan process: at every moment of every run each client there was or has been started is the current one, or stopped, or in the hands of exactly one caller about to stop or install it, and never two of these (a stopped client stays named only while it is being replaced). |
| `ClientOwnership.AllClientsAccountedFor` | src/unflincher/llm.py:60-240 | Once all callers are through, every client ever started is either current or stopped. |
| `ClientOwnership.RefreshInstallsItsClient` | src/unflincher/llm.py:118-129 | A refresh installs the very client it started, under a generation number never given out before, reopens admission and goes on to read the models; without a client it leaves the slot empty. |
| `ClientOwnership.TransitionSteps` | src/unflincher/llm.py:669-690 | The old client is stopped once nobody uses it, then a refresh starts a new one. |
| `ClientOwnership.StartInstallsItsClient` | src/unflincher/llm.py:86-99 | A caller that finds no client starts one and is admitted to it under a new number; a failed start leaves the slot empty. |
| `ClientOwnership.FailedStreamStartsOver` | src/unflincher/llm.py:335-352 | A stream whose transport failed before any token gives its admission back, replaces the client it used and starts over once; every other caller is through. |
| `ClientOwnership.ReplacementSteps` | src/unflincher/llm.py:132-160 | The client is taken out only if it is still the one the failed stream used and nobody works on it, and is stopped before admission is reopened. |
| `ClientOwnership.WaitingSteps` | src/unflincher/llm.py:86-160 | What a waiting caller does when it is woken: it looks again at the flag, the client and the count. |
| `CompletionStream.StreamCompletion` | src/unflincher/llm.py:267-356 | Tokens, ending and the calls into the lifecycle for every script of events and every consumer. |
| `CompletionStream.ReadEvents` | src/unflincher/llm.py:313-331 | Reading one attempt yields the nonempty deltas up to the event that ends it. |
| `CompletionStream.NeverSpliced` | src/unflincher/llm.py:335-347 | What reaches the consumer is a prefix of one single attempt's deltas, the second's only if the first yielded nothing. |
| `CompletionStream.DeltasAre` | src/unflincher/llm.py:320-328 | The deltas are the texts of the delta events, in order, without the empty ones. |
| `CompletionStream.EndingsMeanWhatTheySay` | src/unflincher/llm.py:313-342 | For every consumer and both attempts: a retry is made exactly if a transport failure came before any token, never after a session error; a completed stream delivered every delta up to an idle event; only the consumer cuts a stream short. |
| `CompletionStream.AdmissionsBalance` | src/unflincher/llm.py:335-352 | Admissions and releases balance on every exit, at most two of each; a replacement is asked for at most once, never while holding an admission. |
| `Envelope.CanonicalJsonInjective` | src/unflincher/request_envelope.py:97-118 | Two envelopes have the same canonical form exactly if they are equal, absent and the text "null" told apart. |
| `Envelope.QuotedReadsBack` | src/unflincher/request_envelope.py:118-118 | A quoted ASCII-only JSON text determines the text and what follows it. |
| `Envelope.MatchIdentifiesOneRequest` | src/unflincher/request_envelope.py:129-141 | A stored match holds exactly for the stored request, up to a digest collision on the two texts. |
| `JsonForm.CanonicalIsGeneral` | src/unflincher/request_envelope.py:97-119 | The canonical form is what a general JSON writer makes of the thirteen members in key order. |
| `JsonForm.EscapeDenotes` | src/unflincher/request_envelope.py:119-119 | Every escape is printable ASCII and denotes, to a JSON reader, the character it was made for, surrogate pairs included. |
| `Envelope.EscapesInOrder` | src/unflincher/request_envelope.py:119-119 | Escapes stand in the order of their characters. |
| `Budget.AcceptedFits` | src/unflincher/context_budget.py:95-114 | An accepted request has at most twice the limit in bytes; its reported estimate lies between the raw one and the limit. |
| `Budget.PreflightIs` | src/unflincher/context_budget.py:95-114 | Which refusal is given with which numbers: no usable limit, or a margined estimate above it; a request exactly on the limit is accepted. |
| `Budget.Utf8LengthIsRight` | src/unflincher/context_budget.py:77-84 | The length counted is that of the UTF-8 text. |
| `Budget.Utf8WidthIsRight` | src/unflincher/context_budget.py:77-84 | A character's width is the length of a form from which it can be read back. |
| `Budget.EstimateNearlyAdditive` | src/unflincher/context_budget.py:77-92 | Estimates are monotone under appending and within one token of additive. |
| `Budget.GrowingNeverHelps` | src/unflincher/context_budget.py:95-114 | Growing a refused request never makes it acceptable. |
| `Budget.RoomyRequestsAreAccepted` | src/unflincher/context_budget.py:95-114 | A request that fits with fifteen percent to spare is accepted; one over the limit in the raw estimate is refused. |
| `SseFrames.StreamInto` | src/unflincher/static/app.js:169-211 | Reading chunk by chunk shows what reading the whole text at once shows, for every split into chunks; it ends as done exactly if a done event came and nothing failed. |
| `SseFrames.FramesIncremental` | src/unflincher/static/app.js:169-178 | Frames cut early are the frames cut late. |
| `SseFrames.FrameReadsBack` | src/unflincher/static/app.js:12-24 | A frame gives back its event name, and its data exactly if that has no carriage return. |
| `SseFrames.CarriageReturnIsLost` | src/unflincher/static/app.js:12-24 | A message with a carriage return that comes back different. |
| `SseFrames.StreamReadsBack` | src/unflincher/static/app.js:169-178 | The encoded stream, keep-alive comments included, is cut and parsed into exactly the messages sent, with their line endings normalised, for all data. |
| `SseFrames.SurfaceShowsTheTokens` | src/unflincher/static/app.js:169-208 | End to end, for everything the server can write and every split into chunks: the reading fails exactly at an error event or a null done payload; the surface shows exactly the token texts if no handled done event carries html, otherwise the last html, or its plain text with the tokens after it. |
| `SseFrames.TokensAre` | src/unflincher/static/app.js:180-182 | Token texts are joined in the order of their messages. |
| `SseFrames.PingIsHarmless` | src/unflincher/static/app.js:16-24 | A keep-alive comment changes nothing exactly as long as no html has been rendered; the text shown never changes. |
| `ResultSelection.CheckIsExact` | src/unflincher/db.py:1408-1424 | The check of a target passes exactly if it has no successful row or both rules pick the same one; a reported conflict is real. |
| `ResultSelection.Verify` | src/unflincher/db.py:1427-1464 | All conflicts are collected, in entry order, then the report's. |
| `ResultSelection.ConflictsAre` | src/unflincher/db.py:1427-1464 | What is reported is exactly the conflicts of the listed entries, in their order. |
| `ResultSelection.VerifiedExactlyIfRulesAgree` | src/unflincher/db.py:1427-1464 | No conflict is found exactly if for every entry, and the report, the v0.1 rule and the v0.2 rule agree. |
| `ResultSelection.PruneHistory` | src/unflincher/db.py:1344-1385 | The prune loop keeps exactly one row per entry, the one the rule names. |
| `ResultSelection.PruneKeepsCurrent` | src/unflincher/db.py:1344-1385 | Pruning keeps every entry's current reflection, never takes an only row, and leaves one row per entry. |
| `ResultSelection.KeptIs` | src/unflincher/db.py:1369-1384 | The row a prune keeps is the highest successful one, or the highest of any status if none is, and no other. |
| `ResultSelection.PruneIsIdempotent` | src/unflincher/db.py:1344-1385 | Pruning a pruned history changes nothing. |
| `ResultSelection.PruneIsResumable` | src/unflincher/db.py:1344-1385 | A prune interrupted between any two of its deletes and run again ends with the rows of an undisturbed one. |
| `ResultSelection.PartlyPrunedKept` | src/unflincher/db.py:1344-1385 | Partway through a prune every entry still shows its current reflection and keeps the row the prune would keep. |
| `Upgrade.DatabaseFile.RunBootstrap` | src/unflincher/cli.py:71-103 | Every check comes before the first write, so a refusal leaves the file as it was, and it is refused exactly if it is unfit: unknown schema, work in progress, a fresh install, or, unverified, rules that disagree. A run that is not killed on a fit v0.1 database ends operational and pruned. |
| `Upgrade.RefusedExactlyIf` | src/unflincher/cli.py:74-87 | An untouched v0.1 database is refused exactly if work is in progress or the two rules disagree about some entry or the report; one with an unknown feature always is. |
| `Upgrade.NothingMayBeMissing` | src/unflincher/db.py:530-624 | A schema from which any feature is missing is refused, by the command and by the server. |
| `Upgrade.ShownReflectionSurvives` | src/unflincher/cli.py:83-103 | Whenever the command changes an unverified file, the reflection v0.1 shows for an entry survives and is the one v0.2 shows, wherever the command is killed; at the end it is the only one. |
| `Upgrade.DatabaseFile.InitializeDatabase` | src/unflincher/db.py:778-807 | Only a first start changes the file; any other start leaves it alone and succeeds exactly if the file is operational; a fresh file is never refused and, unless killed, ends operational with the one seeded prompt. |
| `Upgrade.PartwayIsAcceptable` | src/unflincher/db.py:530-624 | After a crash behind any statement of the migration, deletes of the prune included, the schema check still accepts the database. |
| `Upgrade.UpgradeIsResumable` | src/unflincher/db.py:665-776 | After any number of crashes at any statements, those between two deletes of the prune included, running the command to its end gives the database an undisturbed run gives, and it is never refused. |
| `Upgrade.UpgradeOutcome` | src/unflincher/cli.py:71-103 | The upgrade ends verified, locked, complete, with every prompt and report as it was and of every entry's reflections exactly the one the prune rule keeps, the current one if there is any. |
| `Upgrade.ServerStartsFromTheLastColumnOn` | src/unflincher/db.py:778-828 | After any crashes of the upgrade the server starts exactly if the last column has been added, however much of the prune is left; it changes nothing and every entry shows the reflection it showed before. |
| `Upgrade.StartsOnlyFinishedExactlyIf` | src/unflincher/db.py:768-806 | That the server starts only on a finished upgrade holds exactly if no entry has more than one reflection. |
| `Upgrade.UnfinishedUpgradeIsServed` | src/unflincher/db.py:768-806 | A v0.1 database on which the server starts although the upgrade was killed before its prune. |
| `Upgrade.PartwayHistory` | src/unflincher/db.py:1344-1385 | Wherever the upgrade is interrupted, every entry shows the reflection it showed before, and the prune ahead goes through the same entries to the same rows. |
| `Upgrade.FreshSeedsExactlyOnce` | src/unflincher/db.py:831-865 | Across any crashes and restarts a fresh database ends with exactly the one seeded prompt, and none before. |
| `Upgrade.ResumeIsMax` | src/unflincher/db.py:665-732 | Statements repeated after a crash have no second effect. |

## Left out

- SQLite itself: file handling, WAL, PRAGMAs, SQL text, time stamps, and columns no property needs (titles of entries aside, `version_no`, `preset_key`, owner tokens, covered dates of reports).
- Cancellation of a running task other than as a crash: `run_job`'s cancellation path releases leases while items stay unfinished, and a transition cancelled while waiting leaves its flag set; both end in the same recovery a crash ends in.
- `delete_session` after the release in `stream_completion_envelope`, which is best effort and outside the admission, and `_ensure_client`, which runs at boot only.
- ClientLifecycle: the client protocol is on values, not in a class, because the steps of many callers interleave inside each function; the shared fields are one record that every step replaces.
- GenerationSafety: the state machine is on values for the same reason; the imperative forms of its transactions, worker and routes are in `Database`, `BatchWorker` and `Routes`, each run from start to end.
- Start, resume and sweep functions no route uses any more (`start_regen_job`, `set_active_prompt_and_start_regen_job`, `start_single_entry_commentary_job`, `resume_sweep`): they bypass leases and maintenance.
- SHA-256: any function from text to text; freedom from collision is a hypothesis on two texts in `Envelope.MatchIdentifiesOneRequest` and is needed nowhere else.
- The two fixed instruction texts and the prompt texts, which are parameters, and text with unpaired surrogates.
- The second generation of a malformed Entry Reflection within one item: to the protocol it is part of the one generation that ends with a text or a failure.
- The error text stored with a failed item, which is the empty text in the state machine and in `BatchWorker`.
- Recovery of an item with a negative stored format version, which would abort recovery; no transaction stores one.
- GenerationSafety.DoSubmit: the worker of an admitted or requeued job appears in the step of the commit; in the program it is a background task started after the response, so a job can exist a while without one.
- Renaming and touching of sessions in the state machine, where titles are never read: a new conversation's title task is a request lease like any other there, and is in `Routes` with its rename.
- Routes.SendNewSessionMessage: maintenance locked while the title task already holds its lease; that lock affects neither.
- Upgrade.UpgradeOutcome: a table's SQL text is reduced to the features it has, and the triggers that guard the prompts during the upgrade are left out.
- Rendering, translation, authentication, the importer, deploy scripts and the synthetic probe: presentation and input or output.
