/** The bounded rebuild loop around admission: prepare every request against the archive as read,
    wait for the model's limit, enqueue; if an entry was written meanwhile, rebuild everything. */
module RegenEnqueue {
  import opened Tables
  import opened Archive
  import opened Store
  import opened Database
  import opened GenerationSafety
  import opened WorkSteps

  const MAX_ARCHIVE_CHANGED_ATTEMPTS := 3

  datatype NewEntry = NewEntry(date: string, title: string, text: string)

  /** Why no job was created: the transaction refused, or a request could not be prepared or is over
      the model's budget. */
  datatype Refused = ByTransaction(refusal: Refusal) | ByPreparation

  /** What happens while an attempt awaits the model's limit: the entries other requests write, and
      whether the limit then admits every prepared request. */
  datatype Interlude = Interlude(written: seq<NewEntry>, admits: bool)

  function Written(db: Db, written: seq<NewEntry>): Db {
    if written == [] then db
    else
      var e := written[|written| - 1];
      WriteEntry(Written(db, written[..|written| - 1]), e.date, e.title, e.text)
  }

  lemma {:induction false} WrittenKeeps(db: Db, written: seq<NewEntry>)
    requires db.entries.Valid()
    ensures Written(db, written).entries.Valid() && Extends(db.entries.rows, Written(db, written).entries.rows)
    ensures Written(db, written) == db.(entries := Written(db, written).entries)
    ensures written != [] ==> exists k :: k in Written(db, written).entries.rows && k !in db.entries.rows
    ensures Written(db, written).entries.next == db.entries.next + |written|
  {
    if written != [] {
      var n := |written| - 1;
      WrittenKeeps(db, written[..n]);
      var id := Written(db, written[..n]).entries.next;
      assert id in Written(db, written).entries.rows;
    }
  }

  // ------------------------------------------------------------------ specification

  /** What is to be regenerated: everything, or one entry's reflection. */
  datatype Scope = Everything | SingleEntry(entry: int)

  /** The targets of a batch, prepared from the archive of `db`. */
  function Batch(env: Env, db: Db, prompt: Prompt, scope: Scope): Option<seq<Prepared>>
    requires db.entries.Valid()
  {
    BatchOf(env, LiveArchive(db.entries), prompt, OrderedIds(db.entries), scope)
  }

  function BatchOf(env: Env, all: seq<Entry>, prompt: Prompt, ids: seq<int>, scope: Scope): Option<seq<Prepared>> {
    match scope
    case Everything => PreparedAll(env, all, prompt, ids)
    case SingleEntry(entry) => PreparedSingle(env, all, prompt, ids, entry)
  }

  function PreparedSingle(env: Env, all: seq<Entry>, prompt: Prompt, ids: seq<int>, entry: int): Option<seq<Prepared>> {
    if entry !in ids then None
    else
      match PreparedTarget(env, all, prompt, EntryCommentary, Some(entry))
      case None => None
      case Some(p) => Some([p])
  }

  /** One attempt. A single request is assembled before the wait for the limit, a whole batch after it. */
  ghost function Once(env: Env, db: Db, prompt: Prompt, choice: PromptChoice, scope: Scope, interlude: Interlude): (Db, Result<int, Refused>)
    requires db.entries.Valid()
  {
    WrittenKeeps(db, interlude.written);
    var later := Written(db, interlude.written);
    var batch := Batch(env, db, prompt, scope);
    if batch.None? && scope.SingleEntry? then (db, Failure(ByPreparation))
    else if batch.None? || !interlude.admits then (later, Failure(ByPreparation))
    else
      BatchValid(env, db, prompt, scope);
      match Enqueue(later, choice, OrderedIds(db.entries), batch.value)
      case (after, Success(job)) => (after, Success(job))
      case (_, Failure(refusal)) => (later, Failure(ByTransaction(refusal)))
  }

  lemma OnceKeepsEntries(env: Env, db: Db, prompt: Prompt, choice: PromptChoice, scope: Scope, interlude: Interlude)
    requires db.entries.Valid()
    ensures Once(env, db, prompt, choice, scope, interlude).0.entries.Valid()
  {
    hide Batch, OrderedIds, ClaimTargets, AddItems;
    WrittenKeeps(db, interlude.written);
    BatchValid(env, db, prompt, scope);
  }

  /** Attempts `attempt`, `attempt + 1`, ... of the loop: only a changed archive leads to another. */
  ghost function Attempts(env: Env, db: Db, prompt: Prompt, choice: PromptChoice, scope: Scope, interludes: seq<Interlude>, attempt: nat):
    (Db, Result<int, Refused>)
    requires db.entries.Valid() && |interludes| == MAX_ARCHIVE_CHANGED_ATTEMPTS && attempt <= MAX_ARCHIVE_CHANGED_ATTEMPTS
    decreases MAX_ARCHIVE_CHANGED_ATTEMPTS - attempt
  {
    if attempt == MAX_ARCHIVE_CHANGED_ATTEMPTS then (db, Failure(ByTransaction(ArchiveChanged)))
    else
      OnceKeepsEntries(env, db, prompt, choice, scope, interludes[attempt]);
      var (after, r) := Once(env, db, prompt, choice, scope, interludes[attempt]);
      if r == Failure(ByTransaction(ArchiveChanged)) then Attempts(env, after, prompt, choice, scope, interludes, attempt + 1)
      else (after, r)
  }

  lemma {:induction false} PreparedEntriesValid(env: Env, all: seq<Entry>, prompt: Prompt, ids: seq<int>)
    requires PreparedEntries(env, all, prompt, ids).Some?
    ensures AllValid(PreparedEntries(env, all, prompt, ids).value)
  {
    if ids != [] {
      PreparedEntriesValid(env, all, prompt, ids[..|ids| - 1]);
    }
  }

  lemma PreparedAllValid(env: Env, all: seq<Entry>, prompt: Prompt, ids: seq<int>)
    ensures PreparedAll(env, all, prompt, ids).Some? ==> AllValid(PreparedAll(env, all, prompt, ids).value)
  {
    if PreparedAll(env, all, prompt, ids).Some? {
      PreparedEntriesValid(env, all, prompt, ids);
    }
  }

  lemma BatchValid(env: Env, db: Db, prompt: Prompt, scope: Scope)
    requires db.entries.Valid()
    ensures Batch(env, db, prompt, scope).Some? ==> AllValid(Batch(env, db, prompt, scope).value)
  {
    hide PreparedAll, OrderedIds, Resolve;
    PreparedAllValid(env, LiveArchive(db.entries), prompt, OrderedIds(db.entries));
  }

  // ------------------------------------------------------------------ the loop

  /** Other requests writing entries while this one waits. */
  method Interrupt(db: Database, written: seq<NewEntry>)
    modifies db
    ensures db.State() == Written(old(db.State()), written)
  {
    var n := 0;
    while n < |written|
      invariant n <= |written|
      invariant db.State() == Written(old(db.State()), written[..n])
    {
      assert written[..n + 1][..n] == written[..n];
      db.entries := db.entries.Insert(Entry(db.entries.next, written[n].date, written[n].title, written[n].text));
      n := n + 1;
    }
    assert written[..n] == written;
  }

  /** The target as prepared: what it is about, and the identity its request was assembled to. */
  predicate IsTarget(env: Env, all: seq<Entry>, prompt: Prompt, t: Prepared, targetType: TargetType, entryId: Option<int>) {
    && t.targetType == targetType && t.entryId == entryId && t.Valid()
    && env.assemble(all, prompt, targetType, entryId) == Some((t.formatVersion, t.fingerprint))
  }

  /** A request that can be assembled to a proper identity for a proper target. */
  predicate Preparable(env: Env, all: seq<Entry>, prompt: Prompt, targetType: TargetType, entryId: Option<int>) {
    && env.assemble(all, prompt, targetType, entryId).Some?
    && var (version, mark) := env.assemble(all, prompt, targetType, entryId).value;
    && version >= 1 && mark != ""
    && (if targetType == EntryCommentary then entryId.Some? && entryId.value != 0 else entryId.None?)
  }

  /** One target for every listed entry, in order, then the report. */
  predicate IsBatch(env: Env, all: seq<Entry>, prompt: Prompt, ids: seq<int>, targets: seq<Prepared>) {
    && |targets| == |ids| + 1
    && (forall n :: 0 <= n < |ids| ==> IsTarget(env, all, prompt, targets[n], EntryCommentary, Some(ids[n])))
    && IsTarget(env, all, prompt, targets[|ids|], AggregateReport, None)
  }

  predicate AllPreparable(env: Env, all: seq<Entry>, prompt: Prompt, ids: seq<int>) {
    && (forall n :: 0 <= n < |ids| ==> Preparable(env, all, prompt, EntryCommentary, Some(ids[n])))
    && Preparable(env, all, prompt, AggregateReport, None)
  }

  lemma PreparedTargetIs(env: Env, all: seq<Entry>, prompt: Prompt, targetType: TargetType, entryId: Option<int>)
    ensures PreparedTarget(env, all, prompt, targetType, entryId).Some? <==> Preparable(env, all, prompt, targetType, entryId)
    ensures PreparedTarget(env, all, prompt, targetType, entryId).Some? ==>
      IsTarget(env, all, prompt, PreparedTarget(env, all, prompt, targetType, entryId).value, targetType, entryId)
  {
  }

  lemma {:induction false} PreparedEntriesAre(env: Env, all: seq<Entry>, prompt: Prompt, ids: seq<int>)
    ensures var entries := PreparedEntries(env, all, prompt, ids);
      && (entries.Some? <==> forall n :: 0 <= n < |ids| ==> Preparable(env, all, prompt, EntryCommentary, Some(ids[n])))
      && (entries.Some? ==>
            && |entries.value| == |ids|
            && forall n :: 0 <= n < |ids| ==> IsTarget(env, all, prompt, entries.value[n], EntryCommentary, Some(ids[n])))
  {
    hide IsTarget, Preparable, PreparedTarget;
    if ids != [] {
      var n := |ids| - 1;
      PreparedEntriesAre(env, all, prompt, ids[..n]);
      PreparedTargetIs(env, all, prompt, EntryCommentary, Some(ids[n]));
      assert forall m :: 0 <= m < n ==> ids[..n][m] == ids[m];
    }
  }

  /** An apply-all batch is one target per entry and the report at the end; it fails exactly if one of
      these requests cannot be prepared. */
  lemma PreparedAllIs(env: Env, all: seq<Entry>, prompt: Prompt, ids: seq<int>)
    ensures PreparedAll(env, all, prompt, ids).Some? <==> AllPreparable(env, all, prompt, ids)
    ensures PreparedAll(env, all, prompt, ids).Some? ==> IsBatch(env, all, prompt, ids, PreparedAll(env, all, prompt, ids).value)
  {
    hide IsTarget, Preparable, PreparedTarget, PreparedEntries;
    PreparedEntriesAre(env, all, prompt, ids);
    PreparedTargetIs(env, all, prompt, AggregateReport, None);
  }

  /** One target per entry, in archive order, then the report; the first request that cannot be
      prepared abandons the whole batch. */
  method PrepareBatch(env: Env, all: seq<Entry>, prompt: Prompt, ids: seq<int>) returns (targets: seq<Prepared>, ok: bool)
    ensures ok <==> AllPreparable(env, all, prompt, ids)
    ensures ok ==> IsBatch(env, all, prompt, ids, targets)
    ensures ok <==> PreparedAll(env, all, prompt, ids).Some?
    ensures ok ==> targets == PreparedAll(env, all, prompt, ids).value
  {
    PreparedAllIs(env, all, prompt, ids);
    hide IsBatch, AllPreparable, IsTarget, Preparable;
    targets := [];
    var n := 0;
    while n < |ids|
      invariant n <= |ids|
      invariant PreparedEntries(env, all, prompt, ids[..n]) == Some(targets)
    {
      assert ids[..n + 1][..n] == ids[..n];
      var target := PreparedTarget(env, all, prompt, EntryCommentary, Some(ids[n]));
      if target.None? {
        MissingEntry(env, all, prompt, ids, n + 1);
        return [], false;
      }
      targets := targets + [target.value];
      n := n + 1;
    }
    assert ids[..n] == ids;
    var report := PreparedTarget(env, all, prompt, AggregateReport, None);
    if report.None? {
      return [], false;
    }
    targets, ok := targets + [report.value], true;
  }

  lemma {:induction false} MissingEntry(env: Env, all: seq<Entry>, prompt: Prompt, ids: seq<int>, n: nat)
    requires n <= |ids| && PreparedEntries(env, all, prompt, ids[..n]).None?
    ensures PreparedEntries(env, all, prompt, ids).None?
    decreases |ids|
  {
    if n == |ids| {
      assert ids[..n] == ids;
    } else {
      var m := |ids| - 1;
      assert ids[..m][..n] == ids[..n];
      MissingEntry(env, all, prompt, ids[..m], n);
    }
  }

  /** The requests of one attempt, all prepared or none. */
  method Prepare(env: Env, all: seq<Entry>, prompt: Prompt, ids: seq<int>, scope: Scope) returns (batch: Option<seq<Prepared>>)
    ensures batch == BatchOf(env, all, prompt, ids, scope)
  {
    if scope.Everything? {
      var targets, ok := PrepareBatch(env, all, prompt, ids);
      return if ok then Some(targets) else None;
    }
    if scope.entry !in ids {
      return None;
    }
    var target := PreparedTarget(env, all, prompt, EntryCommentary, Some(scope.entry));
    return if target.Some? then Some([target.value]) else None;
  }

  /** One attempt: prepare, wait for the limit, enqueue. */
  method TryOnce(db: Database, env: Env, prompt: Prompt, choice: PromptChoice, scope: Scope, interlude: Interlude)
    returns (r: Result<int, Refused>)
    requires db.entries.Valid()
    modifies db
    ensures (db.State(), r) == Once(env, old(db.State()), prompt, choice, scope, interlude)
  {
    hide BatchOf, Enqueue, OrderedIds, Resolve, Written;
    ghost var before := db.State();
    var ids := OrderedIds(db.entries);
    var all := LiveArchive(db.entries);
    var batch := Prepare(env, all, prompt, ids, scope);
    if batch.None? && scope.SingleEntry? {
      return Failure(ByPreparation);
    }
    WrittenKeeps(before, interlude.written);
    Interrupt(db, interlude.written);
    if batch.None? || !interlude.admits {
      return Failure(ByPreparation);
    }
    BatchValid(env, before, prompt, scope);
    ghost var later := db.State();
    var outcome := db.EnqueueSnapshotRegenJob(choice, ids, batch.value);
    EnqueueAllOrNothing(later, choice, ids, batch.value);
    return if outcome.Success? then Success(outcome.value) else Failure(ByTransaction(outcome.error));
  }

  /** `enqueue_apply_all_job` and `enqueue_single_entry_job`. */
  method EnqueueJob(db: Database, env: Env, prompt: Prompt, choice: PromptChoice, scope: Scope, interludes: seq<Interlude>)
    returns (r: Result<int, Refused>)
    requires db.entries.Valid() && |interludes| == MAX_ARCHIVE_CHANGED_ATTEMPTS
    modifies db
    ensures (db.State(), r) == Attempts(env, old(db.State()), prompt, choice, scope, interludes, 0)
    ensures old(db.items.Valid()) ==> Granted(env, old(db.State()), db.State(), r, prompt, choice, scope)
  {
    hide Granted, Once;
    ghost var expected := Attempts(env, db.State(), prompt, choice, scope, interludes, 0);
    if db.items.Valid() {
      GrantedJobIsTheBatch(env, db.State(), prompt, choice, scope, interludes, 0);
    }
    var attempt := 0;
    while attempt < MAX_ARCHIVE_CHANGED_ATTEMPTS
      invariant attempt <= MAX_ARCHIVE_CHANGED_ATTEMPTS && db.entries.Valid()
      invariant expected == Attempts(env, db.State(), prompt, choice, scope, interludes, attempt)
    {
      OnceKeepsEntries(env, db.State(), prompt, choice, scope, interludes[attempt]);
      r := TryOnce(db, env, prompt, choice, scope, interludes[attempt]);
      if r != Failure(ByTransaction(ArchiveChanged)) {
        return;
      }
      attempt := attempt + 1;
    }
    r := Failure(ByTransaction(ArchiveChanged));
  }

  lemma EnqueueAllOrNothing(db: Db, choice: PromptChoice, ids: seq<int>, targets: seq<Prepared>)
    requires db.entries.Valid() && AllValid(targets)
    ensures Enqueue(db, choice, ids, targets).1.Failure? ==> Enqueue(db, choice, ids, targets).0 == db
    ensures Enqueue(db, choice, ids, targets).1 == Failure(ArchiveChanged) <==> !db.locked && OrderedIds(db.entries) != ids
    ensures Enqueue(db, choice, ids, targets).1.Success? ==>
      var after, job := Enqueue(db, choice, ids, targets).0, Enqueue(db, choice, ids, targets).1.value;
      after.entries == db.entries && job in after.jobs.rows && after.jobs.rows[job].snapshot == OrderedIds(db.entries) == ids
  {
    hide OrderedIds, ClaimTargets, AddItems;
  }

  // ------------------------------------------------------------------ what it comes to

  lemma InterruptedMeansChanged(db: Db, written: seq<NewEntry>)
    requires db.entries.Valid()
    ensures Written(db, written).entries.Valid()
    ensures OrderedIds(Written(db, written).entries) != OrderedIds(db.entries) <==> written != []
  {
    WrittenKeeps(db, written);
    if written != [] {
      var k :| k in Written(db, written).entries.rows && k !in db.entries.rows;
      assert k in OrderedIds(Written(db, written).entries) && k !in OrderedIds(db.entries);
    }
  }

  /** The archive after the first n interludes. */
  function AfterInterludes(db: Db, interludes: seq<Interlude>, n: nat): Db
    requires n <= |interludes|
  {
    if n == 0 then db else Written(AfterInterludes(db, interludes, n - 1), interludes[n - 1].written)
  }

  /** All that stands between an attempt and the enqueue transaction. */
  ghost predicate Prepares(env: Env, db: Db, prompt: Prompt, scope: Scope, interlude: Interlude) {
    db.entries.Valid() && Batch(env, db, prompt, scope).Some? && interlude.admits
  }

  /** The loop gives up on a changing archive exactly if every attempt was fully prepared and every
      one was interrupted by a write: one quiet attempt is enough. */
  lemma {:induction false} GivesUpOnlyIfAlwaysInterrupted(env: Env, start: Db, db: Db, prompt: Prompt, choice: PromptChoice, scope: Scope,
                                                          interludes: seq<Interlude>, attempt: nat)
    requires db.entries.Valid() && !db.locked && |interludes| == MAX_ARCHIVE_CHANGED_ATTEMPTS && attempt <= MAX_ARCHIVE_CHANGED_ATTEMPTS
    requires db == AfterInterludes(start, interludes, attempt)
    ensures Attempts(env, db, prompt, choice, scope, interludes, attempt).1 == Failure(ByTransaction(ArchiveChanged)) <==>
      forall k :: attempt <= k < MAX_ARCHIVE_CHANGED_ATTEMPTS ==>
        interludes[k].written != [] && Prepares(env, AfterInterludes(start, interludes, k), prompt, scope, interludes[k])
    decreases MAX_ARCHIVE_CHANGED_ATTEMPTS - attempt
  {
    hide PreparedAll, PreparedSingle, Enqueue, OrderedIds, Resolve;
    if attempt < MAX_ARCHIVE_CHANGED_ATTEMPTS {
      var interlude := interludes[attempt];
      WrittenKeeps(db, interlude.written);
      InterruptedMeansChanged(db, interlude.written);
      BatchValid(env, db, prompt, scope);
      var later := Written(db, interlude.written);
      var batch := Batch(env, db, prompt, scope);
      if batch.Some? && interlude.admits {
        EnqueueAllOrNothing(later, choice, OrderedIds(db.entries), batch.value);
        if interlude.written != [] {
          GivesUpOnlyIfAlwaysInterrupted(env, start, later, prompt, choice, scope, interludes, attempt + 1);
        }
      } else {
        assert !Prepares(env, AfterInterludes(start, interludes, attempt), prompt, scope, interlude);
      }
    }
  }

  /** A refused admission has written nothing: what changed is only what others wrote meanwhile. A
      granted one replays exactly the archive as it stands at that moment. */
  lemma {:induction false} AdmissionIsAllOrNothing(env: Env, db: Db, prompt: Prompt, choice: PromptChoice, scope: Scope,
                                                   interludes: seq<Interlude>, attempt: nat)
    requires db.entries.Valid() && |interludes| == MAX_ARCHIVE_CHANGED_ATTEMPTS && attempt <= MAX_ARCHIVE_CHANGED_ATTEMPTS
    ensures var (after, r) := Attempts(env, db, prompt, choice, scope, interludes, attempt);
      && after.entries.Valid() && Extends(db.entries.rows, after.entries.rows)
      && (r.Failure? ==> after == db.(entries := after.entries))
      && (r.Success? ==> r.value in after.jobs.rows && after.jobs.rows[r.value].snapshot == OrderedIds(after.entries))
    decreases MAX_ARCHIVE_CHANGED_ATTEMPTS - attempt
  {
    hide PreparedAll, PreparedSingle, Enqueue, OrderedIds, Resolve;
    if attempt < MAX_ARCHIVE_CHANGED_ATTEMPTS {
      var interlude := interludes[attempt];
      WrittenKeeps(db, interlude.written);
      BatchValid(env, db, prompt, scope);
      var later := Written(db, interlude.written);
      var batch := Batch(env, db, prompt, scope);
      if batch.Some? && interlude.admits {
        EnqueueAllOrNothing(later, choice, OrderedIds(db.entries), batch.value);
        AdmissionIsAllOrNothing(env, later, prompt, choice, scope, interludes, attempt + 1);
        ExtendsTwice(db.entries.rows, later.entries.rows, Attempts(env, later, prompt, choice, scope, interludes, attempt + 1).0.entries.rows);
      }
    }
  }

  lemma ExtendsTwice(a: Entries, b: Entries, c: Entries)
    requires Extends(a, b) && Extends(b, c)
    ensures Extends(a, c)
  {
  }

  // ------------------------------------------------------------------ what a granted job consists of

  /** What the items of a job are to be about, in order. */
  function Wanted(scope: Scope, ids: seq<int>): seq<(TargetType, Option<int>)> {
    match scope
    case Everything => seq(|ids| + 1, n requires 0 <= n <= |ids| => if n < |ids| then (EntryCommentary, Some(ids[n])) else (AggregateReport, None))
    case SingleEntry(entry) => [(EntryCommentary, Some(entry))]
  }

  /** A fresh item: pending, never tried, with the identity of its request assembled from this archive
      and prompt, and its target's current result as the baseline. */
  predicate FreshItem(env: Env, all: seq<Entry>, prompt: Prompt, db: Db, job: int, want: (TargetType, Option<int>), item: Item) {
    && item.jobId == job && item.targetType == want.0 && item.entryId == want.1
    && item.status == Pending && item.resultId == None && item.attempts == 0 && item.error == None
    && item.formatVersion.Some? && item.fingerprint.Some?
    && env.assemble(all, prompt, want.0, want.1) == Some((item.formatVersion.value, item.fingerprint.value))
    && item.baseline == Highest((if want.0 == EntryCommentary then db.commentary else db.reports).rows, want.1,
                                (if want.0 == EntryCommentary then db.commentary else db.reports).next)
  }

  predicate FreshRow(env: Env, all: seq<Entry>, prompt: Prompt, db: Db, job: int, want: (TargetType, Option<int>), rows: map<int, Item>, i: int) {
    i in rows && FreshItem(env, all, prompt, db, job, want, rows[i])
  }

  /** The new items are exactly the wanted ones. */
  ghost predicate ItemsAsWanted(env: Env, all: seq<Entry>, prompt: Prompt, db: Db, later: Db, job: int, wanted: seq<(TargetType, Option<int>)>) {
    && later.items.next == db.items.next + |wanted|
    && (forall n :: 0 <= n < |wanted| ==> FreshRow(env, all, prompt, db, job, wanted[n], later.items.rows, db.items.next + n))
    && Extends(db.items.rows, later.items.rows)
    && (forall i :: i in later.items.rows && i !in db.items.rows ==> db.items.next <= i < later.items.next)
  }

  lemma BatchAsWanted(env: Env, db: Db, prompt: Prompt, scope: Scope)
    requires db.entries.Valid() && Batch(env, db, prompt, scope).Some?
    ensures var targets, wanted := Batch(env, db, prompt, scope).value, Wanted(scope, OrderedIds(db.entries));
      && |targets| == |wanted|
      && forall n :: 0 <= n < |wanted| ==> IsTarget(env, LiveArchive(db.entries), prompt, targets[n], wanted[n].0, wanted[n].1)
    ensures scope.SingleEntry? ==> scope.entry in OrderedIds(db.entries)
  {
    hide IsTarget, Preparable, PreparedTarget, PreparedAll, OrderedIds, Resolve;
    PreparedAllIs(env, LiveArchive(db.entries), prompt, OrderedIds(db.entries));
    if scope.SingleEntry? {
      PreparedTargetIs(env, LiveArchive(db.entries), prompt, EntryCommentary, Some(scope.entry));
    }
  }

  lemma ItemOfTarget(env: Env, all: seq<Entry>, prompt: Prompt, db: Db, job: int, want: (TargetType, Option<int>), t: Prepared)
    requires IsTarget(env, all, prompt, t, want.0, want.1)
    ensures FreshItem(env, all, prompt, db, job, want, NewItem(db, job, t))
  {
  }

  lemma ItemsOfBatch(env: Env, all: seq<Entry>, prompt: Prompt, db: Db, later: Db, job: int, targets: seq<Prepared>, wanted: seq<(TargetType, Option<int>)>)
    requires db.items.Valid() && later.items == AddItems(db, job, targets) && |targets| == |wanted|
    requires forall n :: 0 <= n < |wanted| ==> IsTarget(env, all, prompt, targets[n], wanted[n].0, wanted[n].1)
    ensures ItemsAsWanted(env, all, prompt, db, later, job, wanted)
  {
    hide IsTarget, FreshItem, NewItem, FreshRow, AddedRow, AddItems, Table.Valid;
    AddItemsFacts(db, job, targets);
    forall n | 0 <= n < |wanted| ensures FreshRow(env, all, prompt, db, job, wanted[n], later.items.rows, db.items.next + n) {
      assert AddedRow(db, later.items.rows, job, targets[n], db.items.next + n);
      RowOfTarget(env, all, prompt, db, job, wanted[n], targets[n], later.items.rows, db.items.next + n);
    }
  }

  lemma RowOfTarget(env: Env, all: seq<Entry>, prompt: Prompt, db: Db, job: int, want: (TargetType, Option<int>), t: Prepared,
                    rows: map<int, Item>, i: int)
    requires IsTarget(env, all, prompt, t, want.0, want.1) && AddedRow(db, rows, job, t, i)
    ensures FreshRow(env, all, prompt, db, job, want, rows, i)
  {
    hide IsTarget, FreshItem, NewItem;
    ItemOfTarget(env, all, prompt, db, job, want, t);
  }

  lemma EnqueuedItems(db: Db, choice: PromptChoice, ids: seq<int>, targets: seq<Prepared>)
    requires db.entries.Valid() && AllValid(targets) && Enqueue(db, choice, ids, targets).1.Success?
    ensures var after, job := Enqueue(db, choice, ids, targets).0, Enqueue(db, choice, ids, targets).1.value;
      && after.items == AddItems(db, job, targets)
      && job == db.jobs.next && job in after.jobs.rows
      && after.jobs.rows[job].promptId == (if choice.Existing? then choice.id else db.prompts.next)
      && after.jobs.rows[job].status == JobRunning && after.jobs.rows[job].snapshotCount == Some(|ids|)
      && after.commentary == db.commentary && after.reports == db.reports
      && (choice.Activate? ==> after.activePrompt == Some(db.prompts.next) && after.prompts == db.prompts.Insert(Prompt(choice.body, choice.model)))
      && (choice.Existing? ==> after.activePrompt == db.activePrompt && after.prompts == db.prompts)
  {
    hide OrderedIds, ClaimTargets, AddItems;
  }

  /** What a granted job consists of: it runs, over the archive as it stands at that moment, under the
      prompt asked for; and its items are exactly one for every entry of that archive, in its order,
      and one for the report (or the one entry asked for), each pending and with its target's current
      result as the baseline. */
  lemma {:induction false} GrantedJobIsTheBatch(env: Env, db: Db, prompt: Prompt, choice: PromptChoice, scope: Scope,
                                                interludes: seq<Interlude>, attempt: nat)
    requires db.entries.Valid() && db.items.Valid()
    requires |interludes| == MAX_ARCHIVE_CHANGED_ATTEMPTS && attempt <= MAX_ARCHIVE_CHANGED_ATTEMPTS
    ensures var (after, r) := Attempts(env, db, prompt, choice, scope, interludes, attempt);
      Granted(env, db, after, r, prompt, choice, scope)
    decreases MAX_ARCHIVE_CHANGED_ATTEMPTS - attempt
  {
    hide PreparedAll, PreparedSingle, Enqueue, OrderedIds, Resolve, ItemsAsWanted, IsTarget, Wanted;
    if attempt < MAX_ARCHIVE_CHANGED_ATTEMPTS {
      var interlude := interludes[attempt];
      WrittenKeeps(db, interlude.written);
      BatchValid(env, db, prompt, scope);
      var later := Written(db, interlude.written);
      var batch := Batch(env, db, prompt, scope);
      if batch.Some? && interlude.admits {
        var ids := OrderedIds(db.entries);
        EnqueueAllOrNothing(later, choice, ids, batch.value);
        if Enqueue(later, choice, ids, batch.value).1.Success? {
          InterruptedMeansChanged(db, interlude.written);
          assert later == db;
          GrantedNow(env, db, prompt, choice, scope, batch.value);
        } else {
          GrantedJobIsTheBatch(env, later, prompt, choice, scope, interludes, attempt + 1);
          GrantedLater(env, db, later, Attempts(env, later, prompt, choice, scope, interludes, attempt + 1).0,
                       Attempts(env, later, prompt, choice, scope, interludes, attempt + 1).1, prompt, choice, scope);
        }
      }
    }
  }

  ghost predicate Granted(env: Env, db: Db, after: Db, r: Result<int, Refused>, prompt: Prompt, choice: PromptChoice, scope: Scope) {
    r.Success? ==> GrantedJob(env, db, after, r.value, prompt, choice, scope)
  }

  ghost predicate GrantedJob(env: Env, db: Db, after: Db, job: int, prompt: Prompt, choice: PromptChoice, scope: Scope) {
    && after.entries.Valid() && job in after.jobs.rows
    && after.jobs.rows[job] == Job(if choice.Existing? then choice.id else db.prompts.next, JobRunning,
                                   Some(|OrderedIds(after.entries)|), OrderedIds(after.entries))
    && (scope.SingleEntry? ==> scope.entry in OrderedIds(after.entries))
    && ItemsAsWanted(env, LiveArchive(after.entries), prompt, db, after, job, Wanted(scope, OrderedIds(after.entries)))
    && (choice.Activate? ==> after.activePrompt == Some(db.prompts.next) && after.prompts == db.prompts.Insert(Prompt(choice.body, choice.model)))
    && (choice.Existing? ==> after.activePrompt == db.activePrompt && after.prompts == db.prompts)
  }

  lemma GrantedNow(env: Env, db: Db, prompt: Prompt, choice: PromptChoice, scope: Scope, targets: seq<Prepared>)
    requires db.entries.Valid() && db.items.Valid() && Batch(env, db, prompt, scope) == Some(targets) && AllValid(targets)
    requires Enqueue(db, choice, OrderedIds(db.entries), targets).1.Success?
    ensures var (after, r) := Enqueue(db, choice, OrderedIds(db.entries), targets);
      GrantedJob(env, db, after, r.value, prompt, choice, scope)
  {
    hide PreparedAll, PreparedSingle, Enqueue, OrderedIds, Resolve, ItemsAsWanted, IsTarget, Wanted, Batch, AddItems;
    var ids := OrderedIds(db.entries);
    EnqueueAllOrNothing(db, choice, ids, targets);
    EnqueuedItems(db, choice, ids, targets);
    BatchAsWanted(env, db, prompt, scope);
    var (after, r) := Enqueue(db, choice, ids, targets);
    ItemsOfBatch(env, LiveArchive(db.entries), prompt, db, after, r.value, targets, Wanted(scope, ids));
  }

  /** Entries written before it was granted make no other difference. */
  lemma GrantedLater(env: Env, db: Db, later: Db, after: Db, r: Result<int, Refused>, prompt: Prompt, choice: PromptChoice, scope: Scope)
    requires later == db.(entries := later.entries)
    requires r.Success? ==> GrantedJob(env, later, after, r.value, prompt, choice, scope)
    ensures r.Success? ==> GrantedJob(env, db, after, r.value, prompt, choice, scope)
  {
    hide OrderedIds, Resolve, Wanted;
    if r.Success? {
      var wanted, all := Wanted(scope, OrderedIds(after.entries)), LiveArchive(after.entries);
      forall n | 0 <= n < |wanted| ensures FreshRow(env, all, prompt, db, r.value, wanted[n], after.items.rows, db.items.next + n) {
        assert FreshRow(env, all, prompt, later, r.value, wanted[n], after.items.rows, later.items.next + n);
      }
    }
  }
}
