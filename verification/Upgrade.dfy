/** The v0.1 to v0.2 upgrade and the first start of a fresh database, as sequences of statements each
    of which commits by itself. A crash can fall after any of them.

    A schema is the set of features it has: tables (with the columns every version gives them), the
    columns added since, named indexes, and anything unknown. */
module Upgrade {
  import opened Archive
  import opened Tables
  import opened ResultSelection

  datatype TableName =
    | DiaryEntry | PersonaPrompt | EntryCommentary | AggregateReport | ChatMessage | ChatSession | RegenJob | RegenJobItem
    | MaintenanceControl | GenerationLease | EntrySnapshot | BootstrapState

  datatype Column = Model | PresetKey | SessionId | SnapshotCount | FormatVersion | Fingerprint | Baseline

  datatype Index = OneActivePrompt | CommentaryByEntry | MessagesByThread | MessagesBySession | OneRunningJob | ItemsByJob | SnapshotByJob

  datatype Feature = Has(table: TableName) | Col(column: Column) | Ix(index: Index) | Unknown(name: string)

  type Schema = set<Feature>

  datatype Bootstrap = Bootstrap(isFresh: bool, seeded: bool, verified: bool)

  datatype PromptRow = PromptRow(version: int, body: string, active: bool, preset: Option<string>)

  /** `locked` is the maintenance row, if there is one. `idle` (no running job, no lease) is a fact
      about the data that no step changes. The bounds are above all entry ids and all result ids. */
  datatype State = State(
    schema: Schema, locked: Option<bool>, bootstrap: Option<Bootstrap>, prompts: seq<PromptRow>, idle: bool,
    commentary: Rows, reports: Stamps, entryBound: nat, rowBound: nat)

  /** What `verify_current_result_selection_compatibility` finds. */
  function Conflicts(d: State): seq<Found> {
    EntryConflicts(d.commentary, EntryIds(d.commentary, true, d.entryBound), d.rowBound)
      + (if Check(d.reports, d.rowBound).Some? then [Found(None, Check(d.reports, d.rowBound).value)] else [])
  }

  const V01_TABLES: set<TableName> :=
    {DiaryEntry, PersonaPrompt, EntryCommentary, AggregateReport, ChatMessage, ChatSession, RegenJob, RegenJobItem}

  const V02_TABLES: set<TableName> := V01_TABLES + {MaintenanceControl, GenerationLease, EntrySnapshot, BootstrapState}

  const ADDED_COLUMNS: set<Column> := {PresetKey, SnapshotCount, FormatVersion, Fingerprint, Baseline}

  /** The table a column or index belongs to. */
  function ColumnTable(c: Column): TableName {
    match c
    case Model => PersonaPrompt
    case PresetKey => PersonaPrompt
    case SessionId => ChatMessage
    case SnapshotCount => RegenJob
    case FormatVersion => RegenJobItem
    case Fingerprint => RegenJobItem
    case Baseline => RegenJobItem
  }

  function IndexTable(i: Index): TableName {
    match i
    case OneActivePrompt => PersonaPrompt
    case CommentaryByEntry => EntryCommentary
    case MessagesByThread => ChatMessage
    case MessagesBySession => ChatMessage
    case OneRunningJob => RegenJob
    case ItemsByJob => RegenJobItem
    case SnapshotByJob => EntrySnapshot
  }

  // ------------------------------------------------------------------ the schema check

  /** `verify_v01_upgrade_schema`: everything of v0.1, nothing unknown, and of v0.2 only what its
      migration adds, in the order it adds it; all of v0.2 when `requireV02`. */
  predicate Accepts(s: Schema, requireV02: bool) {
    && (forall t :: t in V01_TABLES ==> Has(t) in s)
    && Col(Model) in s && Col(SessionId) in s
    && (forall f :: f in s ==> !f.Unknown?)
    && (forall c :: Col(c) in s ==> Has(ColumnTable(c)) in s)
    && (forall i :: Ix(i) in s ==> Has(IndexTable(i)) in s)
    && (forall i :: Has(IndexTable(i)) in s && (requireV02 || i != SnapshotByJob) ==> Ix(i) in s)
    && (Col(Fingerprint) in s ==> Col(FormatVersion) in s)
    && (Col(Baseline) in s ==> Col(Fingerprint) in s)
    && (requireV02 ==> (forall t :: t in V02_TABLES ==> Has(t) in s) && (forall c :: c in ADDED_COLUMNS ==> Col(c) in s))
  }

  /** `require_v02_operational_schema`. */
  predicate Operational(d: State) {
    && d.bootstrap.Some? && Accepts(d.schema, true) && d.locked.Some?
    && d.bootstrap.value.seeded && d.bootstrap.value.verified
  }

  // ------------------------------------------------------------------ statements

  datatype Step =
    | LockForBootstrap
    | RecordBootstrap
    | CreateTable(table: TableName)
    | CreateIndex(index: Index)
    | InsertControlRow
    | AddColumn(column: Column)
    | PruneEntry(entry: int)
    | SeedAnalyst

  const ANALYST := PromptRow(1, "analyst preset", true, Some("analyst"))

  /** What `CREATE TABLE IF NOT EXISTS` creates: a new persona_prompt has preset_key from the start. */
  function Created(t: TableName): Schema {
    if t == PersonaPrompt then {Has(PersonaPrompt), Col(PresetKey)} else {Has(t)}
  }

  function Deactivated(rows: seq<PromptRow>): seq<PromptRow> {
    seq(|rows|, i requires 0 <= i < |rows| => rows[i].(active := false))
  }

  function HighestVersion(rows: seq<PromptRow>): int {
    if rows == [] then 0
    else
      var before := HighestVersion(rows[..|rows| - 1]);
      if rows[|rows| - 1].version > before then rows[|rows| - 1].version else before
  }

  function Do(d: State, step: Step): State {
    match step
    case LockForBootstrap => d.(schema := d.schema + {Has(MaintenanceControl)}, locked := Some(true))
    case RecordBootstrap =>
      if d.bootstrap.Some? then d.(bootstrap := Some(d.bootstrap.value.(verified := true)))
      else
        var isFresh := d.schema == {};
        d.(schema := d.schema + {Has(BootstrapState)}, bootstrap := Some(Bootstrap(isFresh, !isFresh, true)))
    case CreateTable(t) => if Has(t) in d.schema then d else d.(schema := d.schema + Created(t))
    case CreateIndex(i) => d.(schema := d.schema + {Ix(i)})
    case InsertControlRow => if d.locked.Some? then d else d.(locked := Some(false))
    case AddColumn(c) => d.(schema := d.schema + {Col(c)})
    case PruneEntry(e) => d.(commentary := PrunedAt(d.commentary, e, d.rowBound))
    case SeedAnalyst =>
      if d.bootstrap.None? || d.bootstrap.value.seeded then d
      else d.(prompts := Deactivated(d.prompts) + [ANALYST.(version := HighestVersion(d.prompts) + 1)],
              bootstrap := Some(d.bootstrap.value.(seeded := true)))
  }

  function Steps(d: State, steps: seq<Step>): State {
    if steps == [] then d else Do(Steps(d, steps[..|steps| - 1]), steps[|steps| - 1])
  }

  /** `init_schema`, then the column migrations. */
  const SCHEMA_STEPS: seq<Step> := [
    CreateTable(DiaryEntry), CreateTable(PersonaPrompt), CreateIndex(OneActivePrompt),
    CreateTable(EntryCommentary), CreateIndex(CommentaryByEntry), CreateTable(AggregateReport),
    CreateTable(ChatMessage), CreateIndex(MessagesByThread), CreateTable(ChatSession),
    CreateTable(RegenJob), CreateIndex(OneRunningJob), CreateTable(RegenJobItem), CreateIndex(ItemsByJob),
    CreateTable(MaintenanceControl), InsertControlRow, CreateTable(GenerationLease),
    CreateTable(EntrySnapshot), CreateIndex(SnapshotByJob),
    AddColumn(Model), AddColumn(PresetKey), AddColumn(SessionId), CreateIndex(MessagesBySession),
    AddColumn(SnapshotCount), AddColumn(FormatVersion), AddColumn(Fingerprint), AddColumn(Baseline)]

  const BOOTSTRAP_STEPS: seq<Step> := [LockForBootstrap, RecordBootstrap] + SCHEMA_STEPS

  const FRESH_STEPS: seq<Step> := [RecordBootstrap] + SCHEMA_STEPS + [SeedAnalyst]

  /** The entries `migrate_prune_entry_commentary_history` goes through. */
  function PruneIds(d: State): seq<int> {
    EntryIds(d.commentary, false, d.entryBound)
  }

  function PruneSteps(ids: seq<int>): seq<Step> {
    seq(|ids|, i requires 0 <= i < |ids| => PruneEntry(ids[i]))
  }

  /** The whole migration: the schema, then one DELETE for every entry with reflections. */
  function Migration(d: State): seq<Step> {
    BOOTSTRAP_STEPS + PruneSteps(PruneIds(d))
  }

  function FreshSteps(d: State): seq<Step> {
    [RecordBootstrap] + SCHEMA_STEPS + PruneSteps(PruneIds(d)) + [SeedAnalyst]
  }

  /** The first n statements; all of them if there are no more. */
  function UpTo(steps: seq<Step>, n: nat): seq<Step> {
    if n < |steps| then steps[..n] else steps
  }

  // ------------------------------------------------------------------ the commands

  /** `cli bootstrap`, killed after `upTo` statements. None: refused before any write. */
  function BootstrapRun(d: State, upTo: nat): Option<State> {
    if !Accepts(d.schema, false) || !d.idle then None
    else if d.bootstrap.Some? && (d.bootstrap.value.isFresh || !d.bootstrap.value.seeded) then None
    else if (d.bootstrap.None? || !d.bootstrap.value.verified) && Conflicts(d) != [] then None
    else Some(Steps(d, UpTo(Migration(d), upTo)))
  }

  /** A first start: nothing there yet, or an earlier first start did not get to the seed. */
  predicate FirstStart(d: State) {
    if d.bootstrap.None? then d.schema == {} else d.bootstrap.value.isFresh && !d.bootstrap.value.seeded
  }

  /** `initialize_database` at server start, killed after `upTo` statements. None: it refuses. */
  function Start(d: State, upTo: nat): Option<State> {
    if d.bootstrap.None? && d.schema != {} then None
    else if FirstStart(d) then
      var after := Steps(d, UpTo(FreshSteps(d), upTo));
      if d.bootstrap.Some? && upTo >= |FreshSteps(d)| && !Operational(after) then None else Some(after)
    else if Operational(d) then Some(d)
    else None
  }

  // ------------------------------------------------------------------ the database file

  lemma RowsKeptByStep(d: State, step: Step)
    requires !step.PruneEntry?
    ensures var after := Do(d, step);
      after.commentary == d.commentary && after.entryBound == d.entryBound && after.rowBound == d.rowBound
  {
  }

  lemma {:induction false} RowsKept(d: State, steps: seq<Step>)
    requires forall k :: 0 <= k < |steps| ==> !steps[k].PruneEntry?
    ensures var after := Steps(d, steps);
      after.commentary == d.commentary && after.entryBound == d.entryBound && after.rowBound == d.rowBound
  {
    if steps != [] {
      var n := |steps| - 1;
      hide Do;
      assert forall k :: 0 <= k < n ==> steps[..n][k] == steps[k];
      RowsKept(d, steps[..n]);
      RowsKeptByStep(Steps(d, steps[..n]), steps[n]);
    }
  }

  lemma NoPruneInSchema(first: seq<Step>, n: nat)
    requires forall k :: 0 <= k < |first| ==> !first[k].PruneEntry?
    ensures forall k :: 0 <= k < |UpTo(first + SCHEMA_STEPS, n)| ==> !UpTo(first + SCHEMA_STEPS, n)[k].PruneEntry?
  {
    assert forall k :: 0 <= k < |SCHEMA_STEPS| ==> !SCHEMA_STEPS[k].PruneEntry?;
  }

  /** Killed in a list of two parts: in the first, or so far into the second. */
  lemma KilledInParts(d: State, a: seq<Step>, b: seq<Step>, n: nat)
    ensures Steps(d, UpTo(a + b, n)) == Steps(Steps(d, UpTo(a, n)), UpTo(b, if n > |a| then n - |a| else 0))
  {
    if n > |a| {
      StepsConcat(d, a, UpTo(b, n - |a|));
      assert UpTo(a + b, n) == a + UpTo(b, n - |a|);
    } else {
      assert UpTo(a + b, n) == UpTo(a, n);
      assert UpTo(b, 0) == [];
    }
  }

  /** How the bootstrap command ends. */
  datatype Outcome = Refused | Killed | NotOperational | Finished

  /** The database file, changed statement by statement. */
  class DatabaseFile {
    var d: State

    constructor (d: State)
      ensures this.d == d
    {
      this.d := d;
    }

    /** Run a list of statements, each committing by itself, until the process is killed. */
    method Execute(steps: seq<Step>, upTo: nat)
      modifies this
      ensures d == Steps(old(d), UpTo(steps, upTo))
    {
      var n := 0;
      while n < upTo && n < |steps|
        invariant n <= upTo && n <= |steps|
        invariant d == Steps(old(d), steps[..n])
      {
        assert steps[..n + 1][..n] == steps[..n];
        d := Do(d, steps[n]);
        n := n + 1;
      }
      assert steps[..n] == UpTo(steps, upTo);
    }

    /** The migration: the schema, then the prune of the entries it then finds. */
    method Migrate(first: seq<Step>, upTo: nat)
      requires forall k :: 0 <= k < |first| ==> !first[k].PruneEntry?
      modifies this
      ensures d == Steps(old(d), UpTo(first + SCHEMA_STEPS + PruneSteps(PruneIds(old(d))), upTo))
    {
      var schema := first + SCHEMA_STEPS;
      hide Steps, Do;
      Execute(schema, upTo);
      NoPruneInSchema(first, upTo);
      RowsKept(old(d), UpTo(schema, upTo));
      KilledInParts(old(d), schema, PruneSteps(PruneIds(d)), upTo);
      Execute(PruneSteps(PruneIds(d)), if upTo > |schema| then upTo - |schema| else 0);
    }

    /** `_run_bootstrap`: every check comes before the first write, so a refusal leaves the file as it
        was, and it is refused exactly if it is unfit. A drained v0.1 database on which both rules agree
        is not, and a run that is not killed leaves it operational with its history pruned. */
    method RunBootstrap(upTo: nat) returns (outcome: Outcome)
      modifies this
      ensures outcome.Refused? <==> BootstrapRun(old(d), upTo).None?
      ensures d == if outcome.Refused? then old(d) else BootstrapRun(old(d), upTo).value
      ensures outcome.Killed? <==> !outcome.Refused? && upTo < |Migration(old(d))|
      ensures outcome.Finished? ==> Operational(d)
      ensures Bounded(old(d)) ==> (outcome.Refused? <==> Unfit(old(d)))
      ensures V01Db(old(d)) ==> if upTo < |Migration(old(d))| then outcome.Killed? else outcome.Finished?
      ensures V01Db(old(d)) && outcome.Finished? ==> d.commentary == Pruned(old(d).commentary, old(d).rowBound) && d.prompts == old(d).prompts
    {
      hide Steps, Do, V01Db, Accepts, Operational, Pruned, EntryConflicts, EntryIds, Check, CurrentRow, Bounded, Unfit;
      if Bounded(d) {
        RefusedExactlyIfUnfit(d, upTo);
      }
      if V01Db(d) {
        UpgradeOutcome(d, upTo);
      }
      if !Accepts(d.schema, false) || !d.idle {
        return Refused;
      }
      if d.bootstrap.Some? && (d.bootstrap.value.isFresh || !d.bootstrap.value.seeded) {
        return Refused;
      }
      if d.bootstrap.None? || !d.bootstrap.value.verified {
        var conflicts := Verify(d.commentary, d.reports, d.entryBound, d.rowBound);
        if conflicts != [] {
          return Refused;
        }
      }
      var statements := |Migration(d)|;
      Migrate([LockForBootstrap, RecordBootstrap], upTo);
      if upTo < statements {
        return Killed;
      }
      return if Operational(d) then Finished else NotOperational;
    }

    /** `initialize_database`. Only a first start changes the file, by its own statements; any other
        start leaves it alone, and succeeds exactly if the file is operational. A server that has come
        up without being killed runs on an operational file; a fresh file is never refused and, unless
        killed, ends with the one seeded prompt. */
    method InitializeDatabase(upTo: nat) returns (started: bool)
      modifies this
      ensures started <==> Start(old(d), upTo).Some?
      ensures d == if FirstStart(old(d)) then Steps(old(d), UpTo(FreshSteps(old(d)), upTo)) else old(d)
      ensures !FirstStart(old(d)) ==> (started <==> Operational(old(d)))
      ensures old(d).bootstrap.Some? && started && upTo >= |FreshSteps(old(d))| ==> Operational(d)
      ensures FreshDb(old(d)) ==> started && (upTo >= |FreshSteps(old(d))| ==> Operational(d) && d.prompts == [ANALYST] && d.locked == Some(false))
    {
      if FreshDb(d) {
        FreshStart(d, upTo);
      }
      if d.bootstrap.None? && d.schema != {} {
        return false;
      }
      if FirstStart(d) {
        var known, statements := d.bootstrap.Some?, |FreshSteps(d)|;
        KilledInParts(d, [RecordBootstrap] + SCHEMA_STEPS + PruneSteps(PruneIds(d)), [SeedAnalyst], upTo);
        Migrate([RecordBootstrap], upTo);
        Execute([SeedAnalyst], if upTo >= statements then 1 else 0);
        if known && upTo >= statements && !Operational(d) {
          return false;
        }
        return true;
      }
      return Operational(d);
    }
  }

  // ------------------------------------------------------------------ statements can be repeated

  /** The statement has had its effect. */
  ghost predicate Applied(d: State, step: Step) {
    match step
    case LockForBootstrap => Has(MaintenanceControl) in d.schema && d.locked == Some(true)
    case RecordBootstrap => d.bootstrap.Some? && d.bootstrap.value.verified
    case CreateTable(t) => Has(t) in d.schema
    case CreateIndex(i) => Ix(i) in d.schema
    case InsertControlRow => d.locked.Some?
    case AddColumn(c) => Col(c) in d.schema
    case PruneEntry(e) => DownToOne(d.commentary, e, d.rowBound)
    case SeedAnalyst => d.bootstrap.Some? && d.bootstrap.value.seeded
  }

  lemma DoApplies(d: State, step: Step)
    ensures step != SeedAnalyst ==> Applied(Do(d, step), step)
    ensures step == SeedAnalyst && d.bootstrap.Some? ==> Applied(Do(d, step), step)
    ensures Applied(d, step) ==> Do(d, step) == d
  {
    match step {
      case LockForBootstrap => if Applied(d, step) { assert d.schema + {Has(MaintenanceControl)} == d.schema; }
      case CreateIndex(i) => if Applied(d, step) { assert d.schema + {Ix(i)} == d.schema; }
      case AddColumn(c) => if Applied(d, step) { assert d.schema + {Col(c)} == d.schema; }
      case PruneEntry(e) => RoundLeavesOne(d.commentary, e, d.rowBound);
      case _ =>
    }
  }

  lemma AppliedStays(d: State, step: Step, other: Step)
    requires Applied(d, step)
    ensures Applied(Do(d, other), step)
  {
    if step.PruneEntry? && other.PruneEntry? {
      OneStaysOne(d.commentary, step.entry, other.entry, d.rowBound);
    }
  }

  lemma {:induction false} AppliedThroughout(d: State, step: Step, steps: seq<Step>)
    requires Applied(d, step)
    ensures Applied(Steps(d, steps), step)
  {
    if steps != [] {
      AppliedThroughout(d, step, steps[..|steps| - 1]);
      AppliedStays(Steps(d, steps[..|steps| - 1]), step, steps[|steps| - 1]);
    }
  }

  lemma {:induction false} StepsConcat(d: State, a: seq<Step>, b: seq<Step>)
    ensures Steps(d, a + b) == Steps(Steps(d, a), b)
  {
    if b == [] {
      assert a + b == a;
    } else {
      var n := |b| - 1;
      assert (a + b)[..|a + b| - 1] == a + b[..n];
      StepsConcat(d, a, b[..n]);
    }
  }

  /** Statements that have all had their effect can be run again without any. */
  lemma {:induction false} RepeatChangesNothing(d: State, steps: seq<Step>)
    requires forall k :: 0 <= k < |steps| ==> Applied(d, steps[k])
    ensures Steps(d, steps) == d
  {
    if steps != [] {
      var n := |steps| - 1;
      assert forall k :: 0 <= k < n ==> steps[k] == steps[..n][k];
      RepeatChangesNothing(d, steps[..n]);
      DoApplies(d, steps[n]);
    }
  }

  /** A list that can be resumed: it seeds, if at all, only after recording the bootstrap state. */
  ghost predicate Resumable(steps: seq<Step>) {
    forall k :: 0 <= k < |steps| && steps[k] == SeedAnalyst ==> exists j :: 0 <= j < k && steps[j] == RecordBootstrap
  }

  lemma {:induction false} AllApplied(d: State, steps: seq<Step>, k: nat)
    requires Resumable(steps) && k < |steps|
    ensures Applied(Steps(d, steps), steps[k])
    decreases |steps|
  {
    var n := |steps| - 1;
    var before := Steps(d, steps[..n]);
    assert Resumable(steps[..n]) by {
      forall i | 0 <= i < n && steps[..n][i] == SeedAnalyst ensures exists j :: 0 <= j < i && steps[..n][j] == RecordBootstrap {
        assert steps[i] == SeedAnalyst;
        var j :| 0 <= j < i && steps[j] == RecordBootstrap;
        assert steps[..n][j] == RecordBootstrap;
      }
    }
    if k < n {
      AllApplied(d, steps[..n], k);
      assert steps[..n][k] == steps[k];
      AppliedStays(before, steps[k], steps[n]);
    } else {
      if steps[n] == SeedAnalyst {
        var j :| 0 <= j < n && steps[j] == RecordBootstrap;
        AllApplied(d, steps[..n], j);
        assert steps[..n][j] == steps[j];
      }
      DoApplies(before, steps[n]);
    }
  }

  lemma ResumablePrefix(steps: seq<Step>, n: nat)
    requires Resumable(steps) && n <= |steps|
    ensures Resumable(steps[..n])
  {
    forall i | 0 <= i < n && steps[..n][i] == SeedAnalyst ensures exists j :: 0 <= j < i && steps[..n][j] == RecordBootstrap {
      assert steps[i] == SeedAnalyst;
      var j :| 0 <= j < i && steps[j] == RecordBootstrap;
      assert steps[..n][j] == RecordBootstrap;
    }
  }

  function Max(n: nat, m: nat): nat {
    if n > m then n else m
  }

  /** Running the first m statements after a crash that followed the first n is running the first
      max(n, m) at once. */
  lemma ResumeIsMax(d: State, steps: seq<Step>, n: nat, m: nat)
    requires Resumable(steps)
    ensures Steps(Steps(d, UpTo(steps, n)), UpTo(steps, m)) == Steps(d, UpTo(steps, Max(n, m)))
  {
    hide Steps, Do, Applied, Resumable;
    var first, second := UpTo(steps, n), UpTo(steps, m);
    var least := if |first| > |second| then second else first;
    var crashed := Steps(d, first);
    forall k | 0 <= k < |least| ensures Applied(crashed, least[k]) {
      ResumablePrefix(steps, |first|);
      assert first == steps[..|first|];
      AllApplied(d, first, k);
      assert first[k] == least[k];
    }
    RepeatChangesNothing(crashed, least);
    if |first| < |second| {
      var more := steps[|first|..|second|];
      assert second == first + more;
      StepsConcat(crashed, first, more);
      StepsConcat(d, first, more);
    }
  }

  // ------------------------------------------------------------------ the upgrade

  const V01_INDEXES: set<Index> := {OneActivePrompt, CommentaryByEntry, MessagesByThread, MessagesBySession, OneRunningJob, ItemsByJob}

  ghost predicate V01Schema(s: Schema) {
    && (forall t :: Has(t) in s <==> t in V01_TABLES)
    && (forall c :: Col(c) in s <==> c == Model || c == SessionId)
    && (forall i :: Ix(i) in s <==> i in V01_INDEXES)
    && (forall f :: f in s ==> !f.Unknown?)
  }

  /** A drained v0.1 database on which both current-result rules agree. */
  ghost predicate V01Db(d: State) {
    && V01Schema(d.schema) && d.locked.None? && d.bootstrap.None? && d.idle
    && RowsBelow(d.commentary, d.entryBound, d.rowBound) && Conflicts(d) == []
  }

  lemma BootstrapOrder(n: nat)
    requires n < |BOOTSTRAP_STEPS|
    ensures |BOOTSTRAP_STEPS| == 28 && BOOTSTRAP_STEPS[n] != SeedAnalyst && !BOOTSTRAP_STEPS[n].PruneEntry?
    ensures BOOTSTRAP_STEPS[0] == LockForBootstrap && BOOTSTRAP_STEPS[1] == RecordBootstrap
    ensures BOOTSTRAP_STEPS[15] == CreateTable(MaintenanceControl) && BOOTSTRAP_STEPS[17] == CreateTable(GenerationLease)
    ensures BOOTSTRAP_STEPS[18] == CreateTable(EntrySnapshot) && BOOTSTRAP_STEPS[19] == CreateIndex(SnapshotByJob)
    ensures BOOTSTRAP_STEPS[21] == AddColumn(PresetKey) && BOOTSTRAP_STEPS[24] == AddColumn(SnapshotCount)
    ensures BOOTSTRAP_STEPS[25] == AddColumn(FormatVersion) && BOOTSTRAP_STEPS[26] == AddColumn(Fingerprint)
    ensures BOOTSTRAP_STEPS[27] == AddColumn(Baseline)
    ensures BOOTSTRAP_STEPS[n] == CreateIndex(SnapshotByJob) ==> n > 18
    ensures BOOTSTRAP_STEPS[n] == AddColumn(Fingerprint) ==> n > 25
    ensures BOOTSTRAP_STEPS[n] == AddColumn(Baseline) ==> n == 27
    ensures BOOTSTRAP_STEPS[n] == RecordBootstrap ==> n == 1
    ensures BOOTSTRAP_STEPS[n] == LockForBootstrap ==> n == 0
  {
  }

  /** The first 28 statements of the migration do not depend on the database, the others prune. */
  lemma MigrationOrder(d: State, n: nat)
    requires n < |Migration(d)|
    ensures |BOOTSTRAP_STEPS| == 28 && |Migration(d)| == 28 + |PruneIds(d)|
    ensures n < 28 ==> Migration(d)[n] == BOOTSTRAP_STEPS[n] && !Migration(d)[n].PruneEntry?
    ensures n >= 28 ==> Migration(d)[n] == PruneEntry(PruneIds(d)[n - 28])
    ensures Migration(d)[n] != SeedAnalyst && (n > 0 ==> Migration(d)[n] != LockForBootstrap)
  {
    BootstrapOrder(if n < 28 then n else 0);
  }

  lemma MigrationLength(d: State)
    ensures |BOOTSTRAP_STEPS| == 28 && |Migration(d)| == 28 + |PruneIds(d)|
  {
    MigrationOrder(d, 0);
  }

  lemma BootstrapResumable(d: State)
    ensures Resumable(Migration(d))
  {
    forall k | 0 <= k < |Migration(d)| ensures Migration(d)[k] != SeedAnalyst {
      MigrationOrder(d, k);
    }
  }

  /** The bootstrap state n statements in. */
  function Partway(d: State, n: nat): State {
    Steps(d, UpTo(Migration(d), n))
  }

  lemma OneFurther(d: State, n: nat)
    requires n < |Migration(d)|
    ensures Partway(d, n + 1) == Do(Partway(d, n), Migration(d)[n])
  {
    StepsFurther(d, Migration(d), n);
  }

  lemma StepsFurther(d: State, steps: seq<Step>, n: nat)
    requires n < |steps|
    ensures Steps(d, UpTo(steps, n + 1)) == Do(Steps(d, UpTo(steps, n)), steps[n])
  {
    hide Do;
    assert UpTo(steps, n + 1) == steps[..n + 1];
    assert steps[..n + 1][..n] == steps[..n];
  }

  lemma EarlierApplied(d: State, n: nat, k: nat)
    requires n <= |Migration(d)| && k < n
    ensures Applied(Partway(d, n), Migration(d)[k])
  {
    hide Steps, Do, Applied, Resumable, Migration;
    BootstrapResumable(d);
    ResumablePrefix(Migration(d), n);
    assert UpTo(Migration(d), n) == Migration(d)[..n];
    AllApplied(d, Migration(d)[..n], k);
  }

  /** One more feature that has what it builds on. */
  lemma AcceptableFeature(s: Schema, f: Feature)
    requires Accepts(s, false) && !f.Unknown?
    requires f.Col? ==> Has(ColumnTable(f.column)) in s
    requires f.Ix? ==> Has(IndexTable(f.index)) in s
    requires f.Has? ==> forall i :: IndexTable(i) == f.table && i != SnapshotByJob ==> Ix(i) in s
    requires f == Col(Fingerprint) ==> Col(FormatVersion) in s
    requires f == Col(Baseline) ==> Col(Fingerprint) in s
    ensures Accepts(s + {f}, false)
  {
  }

  /** A statement of the migration keeps an acceptable v0.1 schema acceptable, if what it builds on
      is there. */
  lemma AcceptableStep(d: State, step: Step)
    requires Accepts(d.schema, false)
    requires step == CreateIndex(SnapshotByJob) ==> Has(EntrySnapshot) in d.schema
    requires step == AddColumn(Fingerprint) ==> Col(FormatVersion) in d.schema
    requires step == AddColumn(Baseline) ==> Col(Fingerprint) in d.schema
    ensures Accepts(Do(d, step).schema, false)
  {
    var s := d.schema;
    V01Tables(s);
    if step.AddColumn? || step.CreateIndex? {
      var f := if step.AddColumn? then Col(step.column) else Ix(step.index);
      assert step.CreateIndex? && step.index != SnapshotByJob ==> Has(IndexTable(step.index)) in s;
      AcceptableFeature(s, f);
    } else if step == LockForBootstrap || step == RecordBootstrap {
      AcceptableFeature(s, if step == LockForBootstrap then Has(MaintenanceControl) else Has(BootstrapState));
    } else if step.CreateTable? && Has(step.table) !in s {
      AcceptableFeature(s, Has(step.table));
    }
  }

  lemma V01Tables(s: Schema)
    requires Accepts(s, false)
    ensures Has(DiaryEntry) in s && Has(PersonaPrompt) in s && Has(EntryCommentary) in s && Has(AggregateReport) in s
    ensures Has(ChatMessage) in s && Has(ChatSession) in s && Has(RegenJob) in s && Has(RegenJobItem) in s
    ensures forall c :: Has(ColumnTable(c)) in s
    ensures forall i :: i != SnapshotByJob ==> Has(IndexTable(i)) in s
  {
  }

  lemma V01Accepted(s: Schema)
    requires V01Schema(s)
    ensures Accepts(s, false) && s != {}
  {
    assert Has(DiaryEntry) in s;
  }

  /** Every schema on the way is one the check accepts: a rerun after a crash is never refused. */
  lemma {:induction false} PartwayIsAcceptable(d: State, n: nat)
    requires V01Db(d) && n <= |Migration(d)|
    ensures Accepts(Partway(d, n).schema, false)
  {
    if n == 0 {
      V01Accepted(d.schema);
    } else {
      hide Accepts, V01Db, Partway, Migration;
      var m := n - 1;
      PartwayIsAcceptable(d, m);
      OneFurther(d, m);
      MigrationOrder(d, m);
      BuildsOn(d, m);
      AcceptableStep(Partway(d, m), Migration(d)[m]);
    }
  }

  /** What a statement builds on is there when it runs. */
  lemma BuildsOn(d: State, m: nat)
    requires m < |Migration(d)|
    ensures var before, step := Partway(d, m).schema, Migration(d)[m];
      && (step == CreateIndex(SnapshotByJob) ==> Has(EntrySnapshot) in before)
      && (step == AddColumn(Fingerprint) ==> Col(FormatVersion) in before)
      && (step == AddColumn(Baseline) ==> Col(Fingerprint) in before)
  {
    MigrationOrder(d, m);
    BootstrapOrder(if m < 28 then m else 0);
    forall k | k == 18 || k == 25 || k == 26 ensures k < m && m < 28 ==> Applied(Partway(d, m), BOOTSTRAP_STEPS[k]) {
      if k < m && m < 28 {
        MigrationOrder(d, k);
        EarlierApplied(d, m, k);
      }
    }
    hide Partway, Migration;
  }

  /** What a crash after n statements leaves of the data: an idle database, the prompts and reports as
      they were, locked from the first statement on, never marked as fresh. */
  lemma {:induction false} PartwayData(d: State, n: nat)
    requires V01Db(d) && n <= |Migration(d)|
    ensures var p := Partway(d, n);
      && p.idle && p.prompts == d.prompts && p.reports == d.reports && p.schema != {}
      && p.entryBound == d.entryBound && p.rowBound == d.rowBound
      && (n > 0 ==> p.locked == Some(true))
      && p.bootstrap == if n <= 1 then None else Some(Bootstrap(false, true, true))
  {
    if n == 0 {
      V01Accepted(d.schema);
    } else {
      hide Accepts, V01Db, Partway, Migration;
      var m := n - 1;
      PartwayData(d, m);
      MigrationOrder(d, m);
      BootstrapOrder(if m < 28 then m else 0);
      OneFurther(d, m);
      NeverEmptied(Partway(d, m), Migration(d)[m]);
      DataStep(Partway(d, m), Migration(d)[m]);
    }
  }

  lemma NeverEmptied(d: State, step: Step)
    requires d.schema != {}
    ensures Do(d, step).schema != {}
  {
    var f :| f in d.schema;
    assert f in Do(d, step).schema;
  }

  lemma DataStep(d: State, step: Step)
    requires step != SeedAnalyst && d.schema != {}
    ensures var after := Do(d, step);
      && after.idle == d.idle && after.prompts == d.prompts && after.reports == d.reports
      && after.entryBound == d.entryBound && after.rowBound == d.rowBound
      && after.locked == (if step == LockForBootstrap then Some(true) else if step == InsertControlRow && d.locked.None? then Some(false) else d.locked)
      && after.bootstrap == (if step != RecordBootstrap then d.bootstrap
                             else if d.bootstrap.Some? then Some(d.bootstrap.value.(verified := true)) else Some(Bootstrap(false, true, true)))
  {
  }

  /** What a crash leaves of the reflections: untouched until the last column is there, then pruned
      entry by entry. */
  lemma PartwayRows(d: State, n: nat)
    requires RowsBelow(d.commentary, d.entryBound, d.rowBound) && n <= |Migration(d)|
    ensures n <= 28 ==> Partway(d, n).commentary == d.commentary
    ensures PrunedUpTo(d.commentary, Partway(d, n).commentary, PruneIds(d)[..if n <= 28 then 0 else n - 28], d.rowBound)
  {
    hide Partway, Migration, PrunedUpTo, PruneIds, RowsBelow;
    MigrationLength(d);
    if n <= 28 {
      RowsUntilPrune(d, n);
      NothingPrunedYet(d);
    } else {
      RowsInPrune(d, n - 28);
    }
  }

  lemma {:induction false} RowsUntilPrune(d: State, n: nat)
    requires n <= 28
    ensures n <= |Migration(d)| && Partway(d, n).commentary == d.commentary
  {
    hide Partway, Migration, Do, PruneIds;
    MigrationLength(d);
    if n == 0 {
      NothingPrunedYet(d);
    } else {
      RowsUntilPrune(d, n - 1);
      MigrationOrder(d, n - 1);
      OneFurther(d, n - 1);
      RowsKeptByStep(Partway(d, n - 1), Migration(d)[n - 1]);
    }
  }

  lemma {:induction false} RowsInPrune(d: State, n: nat)
    requires RowsBelow(d.commentary, d.entryBound, d.rowBound) && n <= |PruneIds(d)|
    ensures 28 + n <= |Migration(d)| && PrunedUpTo(d.commentary, Partway(d, 28 + n).commentary, PruneIds(d)[..n], d.rowBound)
  {
    hide Partway, Migration, PrunedUpTo, PrunedAt, Do, PruneIds, RowsBelow;
    MigrationLength(d);
    if n == 0 {
      RowsUntilPrune(d, 28);
      NothingPrunedYet(d);
    } else {
      var m := n - 1;
      RowsInPrune(d, m);
      MigrationOrder(d, 28 + m);
      OneFurther(d, 28 + m);
      PartwayBounds(d, 28 + m);
      PruneStepPrunes(Partway(d, 28 + m), PruneIds(d)[m]);
      RoundOf(d, Partway(d, 28 + m).commentary, m);
    }
  }

  lemma {:induction false} BoundsKept(d: State, steps: seq<Step>)
    ensures Steps(d, steps).entryBound == d.entryBound && Steps(d, steps).rowBound == d.rowBound
  {
    if steps != [] {
      BoundsKept(d, steps[..|steps| - 1]);
    }
  }

  lemma PartwayBounds(d: State, n: nat)
    ensures Partway(d, n).entryBound == d.entryBound && Partway(d, n).rowBound == d.rowBound
  {
    hide Steps;
    BoundsKept(d, UpTo(Migration(d), n));
  }

  lemma NothingPrunedYet(d: State)
    ensures Partway(d, 0).commentary == d.commentary && PrunedUpTo(d.commentary, d.commentary, PruneIds(d)[..0], d.rowBound)
  {
    assert UpTo(Migration(d), 0) == [];
    assert PruneIds(d)[..0] == [];
  }

  lemma RoundOf(d: State, later: Rows, n: nat)
    requires RowsBelow(d.commentary, d.entryBound, d.rowBound) && n < |PruneIds(d)| && PrunedUpTo(d.commentary, later, PruneIds(d)[..n], d.rowBound)
    ensures PrunedUpTo(d.commentary, PrunedAt(later, PruneIds(d)[n], d.rowBound), PruneIds(d)[..n + 1], d.rowBound)
  {
    hide PrunedUpTo, PrunedAt, RowsBelow;
    OneMorePruned(d.commentary, later, PruneIds(d), n, d.entryBound, d.rowBound);
  }

  lemma PruneStepPrunes(d: State, entry: int)
    ensures Do(d, PruneEntry(entry)) == d.(commentary := PrunedAt(d.commentary, entry, d.rowBound))
  {
  }

  /** Wherever the upgrade is interrupted, every entry still shows the reflection it showed before, the
      prune ahead goes through the same entries, and it ends with the same rows. */
  lemma PartwayHistory(d: State, n: nat)
    requires V01Db(d) && n <= |Migration(d)|
    ensures var p := Partway(d, n);
      && Pruned(p.commentary, d.rowBound) == Pruned(d.commentary, d.rowBound)
      && (forall e :: CurrentRow(p.commentary, e, d.rowBound) == CurrentRow(d.commentary, e, d.rowBound))
      && PruneIds(p) == PruneIds(d)
  {
    hide Partway, Migration, Pruned, CurrentRow, PrunedUpTo, HasRow;
    PartwayRows(d, n);
    PartwayData(d, n);
    MigrationLength(d);
    var rows, later, done := d.commentary, Partway(d, n).commentary, PruneIds(d)[..if n <= 28 then 0 else n - 28];
    PruneIsResumable(rows, later, done, d.entryBound, d.rowBound);
    forall e ensures CurrentRow(later, e, d.rowBound) == CurrentRow(rows, e, d.rowBound) && (HasRow(later, e, false) <==> HasRow(rows, e, false)) {
      PartlyPrunedKept(rows, later, done, d.entryBound, d.rowBound, e);
    }
    SameEntryIds(rows, later, d.entryBound);
  }

  /** A run that is not killed leaves a verified, locked v0.2 database with every prompt and report as
      it was, and of every entry's reflections the current one. A killed one is on its way there. */
  lemma UpgradeOutcome(d: State, upTo: nat)
    requires V01Db(d)
    ensures BootstrapRun(d, upTo) == Some(Partway(d, upTo))
    ensures upTo >= |Migration(d)| ==>
      var after := Partway(d, upTo);
      && Operational(after) && after.locked == Some(true) && after.prompts == d.prompts && after.reports == d.reports
      && after.bootstrap == Some(Bootstrap(false, true, true))
      && after.commentary == Pruned(d.commentary, d.rowBound)
      && (forall e :: CurrentRow(after.commentary, e, d.rowBound) == CurrentRow(d.commentary, e, d.rowBound))
  {
    assert RowsBelow(d.commentary, d.entryBound, d.rowBound);
    hide Operational, Accepts, V01Db, Partway, Steps, Migration, Pruned, CurrentRow, RowsBelow;
    RunIsPartway(d, upTo);
    var n := |Migration(d)|;
    if upTo >= n {
      PastTheEnd(d, upTo);
      MigrationLength(d);
      PartwayOperational(d, n);
      PartwayData(d, n);
      PartwayHistory(d, n);
      AllRowsPruned(d);
    }
  }

  lemma PastTheEnd(d: State, n: nat)
    ensures n >= |Migration(d)| ==> Partway(d, n) == Partway(d, |Migration(d)|)
  {
    hide Steps;
  }

  lemma RunIsPartway(d: State, n: nat)
    requires V01Db(d)
    ensures BootstrapRun(d, n) == Some(Partway(d, n))
  {
    V01Accepted(d.schema);
    hide Accepts, V01Schema, Steps, Conflicts;
  }

  lemma AllRowsPruned(d: State)
    requires RowsBelow(d.commentary, d.entryBound, d.rowBound)
    ensures Partway(d, |Migration(d)|).commentary == Pruned(d.commentary, d.rowBound)
  {
    hide Partway, Steps, Migration, Pruned, PrunedUpTo, RowsBelow;
    var n := |Migration(d)|;
    MigrationLength(d);
    PartwayRows(d, n);
    assert PruneIds(d)[..n - 28] == PruneIds(d);
    AllPruned(d.commentary, Partway(d, n).commentary, PruneIds(d), d.entryBound, d.rowBound);
  }

  /** From the last column on the database passes for an upgraded one. */
  lemma PartwayOperational(d: State, n: nat)
    requires V01Db(d) && 28 <= n <= |Migration(d)|
    ensures Operational(Partway(d, n))
  {
    BootstrapOrder(0);
    var after := Partway(d, n);
    PartwayIsAcceptable(d, n);
    PartwayData(d, n);
    RecordedTable(d, n);
    forall k | 0 <= k < 28 ensures Applied(after, BOOTSTRAP_STEPS[k]) {
      MigrationOrder(d, k);
      EarlierApplied(d, n, k);
    }
    hide Accepts, Applied, Partway, V01Db, Migration;
    CompleteSchema(after);
  }

  /** The bootstrap record and its table come together. */
  lemma {:induction false} RecordedTable(d: State, n: nat)
    requires d.bootstrap.None? && n <= |Migration(d)|
    ensures Partway(d, n).bootstrap.Some? ==> Has(BootstrapState) in Partway(d, n).schema
  {
    if n == 0 {
      assert Partway(d, 0) == d;
    } else {
      hide Partway, Migration;
      RecordedTable(d, n - 1);
      OneFurther(d, n - 1);
      RecordStep(Partway(d, n - 1), Migration(d)[n - 1]);
    }
  }

  lemma RecordStep(d: State, step: Step)
    requires d.bootstrap.Some? ==> Has(BootstrapState) in d.schema
    ensures Do(d, step).bootstrap.Some? ==> Has(BootstrapState) in Do(d, step).schema
  {
  }

  lemma CompleteSchema(d: State)
    requires |BOOTSTRAP_STEPS| == 28 && Accepts(d.schema, false) && d.bootstrap.Some? && Has(BootstrapState) in d.schema
    requires forall k :: 0 <= k < 28 ==> Applied(d, BOOTSTRAP_STEPS[k])
    ensures Accepts(d.schema, true)
  {
    BootstrapOrder(0);
    AcceptedIsWellFormed(d.schema);
    forall k | 2 <= k < 28 ensures Applied(d, BOOTSTRAP_STEPS[k]) {
    }
    hide Accepts, Applied;
    AllPresent(d);
  }

  lemma AcceptedIsWellFormed(s: Schema)
    requires Accepts(s, false)
    ensures WellFormed(s)
  {
  }

  // ------------------------------------------------------------------ when the command refuses

  lemma EveryTable(t: TableName)
    ensures t in V02_TABLES
  {
    match t {
      case DiaryEntry => case PersonaPrompt => case EntryCommentary => case AggregateReport => case ChatMessage => case ChatSession =>
      case RegenJob => case RegenJobItem => case MaintenanceControl => case GenerationLease => case EntrySnapshot => case BootstrapState =>
    }
  }

  ghost predicate FullV02(s: Schema) {
    forall f: Feature :: f in s <==> !f.Unknown?
  }

  /** Nothing may be missing from an old schema, or from the new one for the server. */
  lemma NothingMayBeMissing(s: Schema, f: Feature)
    requires f in s && !f.Unknown?
    ensures V01Schema(s) ==> !Accepts(s - {f}, false)
    ensures FullV02(s) ==> !Accepts(s - {f}, true)
  {
    var less := s - {f};
    assert f !in less;
    match f {
      case Has(t) => EveryTable(t);
      case Col(c) => assert c in ADDED_COLUMNS || c == Model || c == SessionId;
      case Ix(i) =>
        if V01Schema(s) || FullV02(s) {
          assert Has(IndexTable(i)) in s;
          assert Has(IndexTable(i)) in less;
        }
      case Unknown(_) =>
    }
  }

  /** Nothing the program does not know may be there. */
  lemma NothingUnknownMayBeThere(s: Schema, name: string, requireV02: bool)
    ensures !Accepts(s + {Unknown(name)}, requireV02)
  {
    assert Unknown(name) in s + {Unknown(name)};
  }

  /** For every entry, and for the report, the row v0.1 shows is the row v0.2 will show. */
  ghost predicate RulesAgree(d: State) {
    Agree(d.reports) && forall e :: Agree(StampsOf(d.commentary, e))
  }

  ghost predicate Bounded(d: State) {
    RowsBelow(d.commentary, d.entryBound, d.rowBound) && Below(d.reports.Keys, d.rowBound)
  }

  lemma ConflictsAreDisagreements(d: State)
    requires Bounded(d)
    ensures Conflicts(d) == [] <==> RulesAgree(d)
  {
    hide EntryConflicts, EntryIds, Check, Agree, StampsOf;
    VerifiedExactlyIfRulesAgree(d.commentary, d.reports, d.entryBound, d.rowBound);
  }

  /** A file the command will not touch: a schema that is not the old one with parts of the new, work
      in progress, a first start of the new version, or, unless verified before, a shown reflection or
      report that the new version would exchange for another. */
  ghost predicate Unfit(d: State) {
    || !Accepts(d.schema, false)
    || !d.idle
    || (d.bootstrap.Some? && (d.bootstrap.value.isFresh || !d.bootstrap.value.seeded))
    || ((d.bootstrap.None? || !d.bootstrap.value.verified) && !RulesAgree(d))
  }

  lemma RefusedExactlyIfUnfit(d: State, upTo: nat)
    requires Bounded(d)
    ensures BootstrapRun(d, upTo).None? <==> Unfit(d)
  {
    hide Conflicts, RulesAgree, Accepts, Steps, Migration;
    ConflictsAreDisagreements(d);
  }

  /** An untouched v0.1 database is refused exactly if work is in progress or the two rules disagree
      about some entry or the report; a schema with an unknown feature always is. */
  lemma RefusedExactlyIf(d: State, upTo: nat)
    requires Bounded(d)
    ensures V01Schema(d.schema) && d.locked.None? && d.bootstrap.None? ==>
      (BootstrapRun(d, upTo).None? <==> !d.idle || !Agree(d.reports) || exists e :: !Agree(StampsOf(d.commentary, e)))
    ensures (exists f :: f in d.schema && f.Unknown?) ==> BootstrapRun(d, upTo).None?
  {
    hide Agree, StampsOf, Steps, Migration, BootstrapRun;
    RefusedExactlyIfUnfit(d, upTo);
    if V01Schema(d.schema) {
      V01Accepted(d.schema);
      hide V01Schema, Accepts;
    }
  }

  /** Whenever the command changes a file that has not been verified before, the reflection v0.1 shows
      for an entry survives, unchanged, and is the one v0.2 shows, wherever the command is killed; once
      it is through, it is the only one of its entry. */
  lemma ShownReflectionSurvives(d: State, upTo: nat, e: int, id: int)
    requires Bounded(d) && BootstrapRun(d, upTo).Some? && (d.bootstrap.None? || !d.bootstrap.value.verified)
    requires LatestPick(StampsOf(d.commentary, e), id)
    ensures var after := BootstrapRun(d, upTo).value.commentary;
      && id in after && after[id] == d.commentary[id]
      && CurrentRow(after, e, d.rowBound) == Some(id)
      && (upTo >= |Migration(d)| ==> forall k :: k in after && after[k].entryId == e ==> k == id)
  {
    hide Steps, Migration, Accepts, EntryConflicts, EntryIds, Check, LatestPick, HighestPick, StampsOf, Pruned, PrunedUpTo, CurrentRow, RowsBelow;
    ConflictsAreDisagreements(d);
    assert Agree(StampsOf(d.commentary, e));
    PickIsCurrent(d.commentary, e, id, d.entryBound, d.rowBound);
    var reached := if upTo < |Migration(d)| then upTo else |Migration(d)|;
    assert Partway(d, upTo) == Partway(d, reached);
    PartwayRows(d, reached);
    SurvivesPartly(d, reached, e, id);
    if upTo >= |Migration(d)| {
      AllRowsPruned(d);
      OnlyTheKept(d.commentary, e, id, d.rowBound);
    }
  }

  lemma PickIsCurrent(rows: Rows, e: int, id: int, entryBound: nat, bound: nat)
    requires RowsBelow(rows, entryBound, bound) && Agree(StampsOf(rows, e)) && LatestPick(StampsOf(rows, e), id)
    ensures id in rows && rows[id].entryId == e && rows[id].ok && CurrentRow(rows, e, bound) == Some(id)
  {
    var stamps := StampsOf(rows, e);
    assert id in stamps.Keys;
    var other :| LatestPick(stamps, other) && HighestPick(stamps, other);
    if other != id {
      TextLessTotal(stamps[other], stamps[id]);
    }
    assert id in IdsOf(rows, e, true);
    var current := CurrentRow(rows, e, bound);
    assert current.value in IdsOf(rows, e, true);
    assert current.value in stamps;
  }

  lemma SurvivesPartly(d: State, n: nat, e: int, id: int)
    requires Bounded(d) && n <= |Migration(d)|
    requires id in d.commentary && d.commentary[id].entryId == e && CurrentRow(d.commentary, e, d.rowBound) == Some(id)
    ensures var after := Partway(d, n).commentary;
      id in after && after[id] == d.commentary[id] && CurrentRow(after, e, d.rowBound) == Some(id)
  {
    hide Steps, Migration, Partway, RowsBelow, CurrentRow;
    MigrationLength(d);
    PartwayRows(d, n);
    var done := PruneIds(d)[..if n <= 28 then 0 else n - 28];
    PartlyPrunedKept(d.commentary, Partway(d, n).commentary, done, d.entryBound, d.rowBound, e);
    assert Kept(d.commentary, e, d.rowBound) == Some(id);
  }

  lemma OnlyTheKept(rows: Rows, e: int, id: int, bound: nat)
    requires CurrentRow(rows, e, bound) == Some(id)
    ensures forall k :: k in Pruned(rows, bound) && Pruned(rows, bound)[k].entryId == e ==> k == id
  {
    hide CurrentRow;
  }

  // ------------------------------------------------------------------ crashes during the upgrade

  /** The bootstrap command run again and again, killed each time after so many statements. */
  ghost function AfterCrashes(d: State, crashes: seq<nat>): Option<State> {
    if crashes == [] then Some(d)
    else
      var n := |crashes| - 1;
      match AfterCrashes(d, crashes[..n])
      case None => None
      case Some(p) => BootstrapRun(p, crashes[n])
  }

  function Furthest(crashes: seq<nat>): nat {
    if crashes == [] then 0 else Max(Furthest(crashes[..|crashes| - 1]), crashes[|crashes| - 1])
  }

  /** However often the command is killed and started again, it is never refused, and the database is
      where a single run would be after the furthest statement reached. */
  lemma {:induction false} CrashesOnlyDelay(d: State, crashes: seq<nat>)
    requires V01Db(d)
    ensures AfterCrashes(d, crashes) == Some(Partway(d, Furthest(crashes)))
  {
    if crashes != [] {
      hide V01Db, Accepts;
      var n := |crashes| - 1;
      CrashesOnlyDelay(d, crashes[..n]);
      BootstrapAgain(d, Furthest(crashes[..n]), crashes[n]);
    }
    hide BootstrapRun;
  }

  /** One more run, killed after n statements, when m had been reached. */
  lemma BootstrapAgain(d: State, m: nat, n: nat)
    requires V01Db(d)
    ensures BootstrapRun(Partway(d, m), n) == Some(Partway(d, Max(m, n)))
  {
    var reached := if m < |Migration(d)| then m else |Migration(d)|;
    assert Partway(d, m) == Partway(d, reached);
    MigrationLength(d);
    PartwayIsAcceptable(d, reached);
    PartwayData(d, reached);
    PartwayRows(d, reached);
    PartwayHistory(d, reached);
    BootstrapResumable(d);
    ResumeIsMax(d, Migration(d), m, n);
    var p := Partway(d, reached);
    assert Migration(p) == Migration(d);
    assert p.bootstrap.None? ==> Conflicts(p) == Conflicts(d);
    hide Accepts, Steps, Migration, Conflicts;
  }

  /** Crash-resumable: after any number of crashes at any statements, those of the prune included,
      running the command to its end gives the very database an undisturbed run gives. */
  lemma UpgradeIsResumable(d: State, crashes: seq<nat>)
    requires V01Db(d)
    ensures AfterCrashes(d, crashes).Some?
    ensures var p := AfterCrashes(d, crashes).value;
      BootstrapRun(p, |Migration(p)|) == BootstrapRun(d, |Migration(d)|)
  {
    CrashesOnlyDelay(d, crashes);
    var m, n := Furthest(crashes), |Migration(d)|;
    var reached := if m < n then m else n;
    assert Partway(d, m) == Partway(d, reached) && Partway(d, Max(m, n)) == Partway(d, n);
    PartwayData(d, reached);
    PartwayHistory(d, reached);
    MigrationLength(d);
    MigrationLength(Partway(d, m));
    BootstrapAgain(d, m, n);
    UpgradeOutcome(d, n);
    hide V01Db, Partway, BootstrapRun, Migration;
  }

  // ------------------------------------------------------------------ the server on an upgraded file

  /** The last column is there exactly once the last schema statement has run. */
  lemma {:induction false} LastColumnLast(d: State, n: nat)
    requires V01Db(d) && n <= |Migration(d)|
    ensures Col(Baseline) in Partway(d, n).schema <==> n >= 28
  {
    if n > 0 {
      hide V01Db, Partway, Migration;
      var m := n - 1;
      LastColumnLast(d, m);
      MigrationOrder(d, m);
      BootstrapOrder(if m < 28 then m else 0);
      OneFurther(d, m);
      OnlyItsStatement(Partway(d, m), Migration(d)[m]);
    }
  }

  lemma OnlyItsStatement(d: State, step: Step)
    ensures Col(Baseline) in Do(d, step).schema <==> Col(Baseline) in d.schema || step == AddColumn(Baseline)
  {
  }

  /** After any crashes of the upgrade the server starts exactly if the last column is there, however
      much of the prune is left; it changes nothing, and never seeds a prompt. Every entry shows the
      reflection it showed before the upgrade. */
  lemma ServerStartsFromTheLastColumnOn(d: State, crashes: seq<nat>, upTo: nat)
    requires V01Db(d) && AfterCrashes(d, crashes).Some?
    ensures var p := AfterCrashes(d, crashes).value;
      && Start(p, upTo) == (if Col(Baseline) in p.schema then Some(p) else None)
      && (Col(Baseline) in p.schema <==> Furthest(crashes) >= 28)
      && (forall e :: CurrentRow(p.commentary, e, d.rowBound) == CurrentRow(d.commentary, e, d.rowBound))
  {
    CrashesOnlyDelay(d, crashes);
    var m := Furthest(crashes);
    var reached := if m < |Migration(d)| then m else |Migration(d)|;
    assert Partway(d, m) == Partway(d, reached);
    MigrationLength(d);
    LastColumnLast(d, reached);
    PartwayData(d, reached);
    PartwayHistory(d, reached);
    if reached >= 28 {
      PartwayOperational(d, reached);
    }
    hide V01Db, Partway, Migration, Accepts;
  }

  ghost predicate OneRowEach(rows: Rows) {
    forall k, l :: k in rows && l in rows && rows[k].entryId == rows[l].entryId ==> k == l
  }

  /** That the server starts only on a finished upgrade holds exactly if no entry has more than one
      reflection: then there is nothing to prune. */
  lemma StartsOnlyFinishedExactlyIf(d: State)
    requires V01Db(d)
    ensures (forall n: nat, upTo: nat :: Start(Partway(d, n), upTo).Some? ==> Partway(d, n) == Partway(d, |Migration(d)|))
       <==> OneRowEach(d.commentary)
  {
    hide V01Db, Partway, Migration, Start, OneRowEach;
    var end := |Migration(d)|;
    if OneRowEach(d.commentary) {
      forall n: nat, upTo: nat | Start(Partway(d, n), upTo).Some? ensures Partway(d, n) == Partway(d, end) {
        if n < end {
          StartedLate(d, n, upTo);
          NothingToPrune(d, n);
        } else {
          PastTheEnd(d, n);
        }
      }
    } else {
      StartedTooEarly(d);
    }
  }

  lemma StartedTooEarly(d: State)
    requires V01Db(d) && !OneRowEach(d.commentary)
    ensures Start(Partway(d, 28), 0).Some? && Partway(d, 28) != Partway(d, |Migration(d)|)
  {
    hide Partway, Migration, Operational, Pruned, PrunedUpTo, V01Schema;
    MigrationLength(d);
    PartwayOperational(d, 28);
    PartwayData(d, 28);
    PartwayRows(d, 28);
    AllRowsPruned(d);
    PruneKeepsCurrent(d.commentary, d.entryBound, d.rowBound, 0);
    OnlyPrunedRows(d.commentary, d.rowBound);
    assert OneRowEach(Pruned(d.commentary, d.rowBound));
  }

  lemma OnlyPrunedRows(rows: Rows, bound: nat)
    ensures forall k :: k in Pruned(rows, bound) ==> k in rows && Pruned(rows, bound)[k] == rows[k]
  {
  }

  lemma StartedLate(d: State, n: nat, upTo: nat)
    requires V01Db(d) && n < |Migration(d)| && Start(Partway(d, n), upTo).Some?
    ensures n >= 28
  {
    PartwayData(d, n);
    LastColumnLast(d, n);
    hide V01Db, Partway, Migration;
  }

  lemma NothingToPrune(d: State, n: nat)
    requires V01Db(d) && OneRowEach(d.commentary) && 28 <= n < |Migration(d)|
    ensures Partway(d, n) == Partway(d, |Migration(d)|)
  {
    var steps := Migration(d);
    MigrationLength(d);
    PartwayRows(d, n);
    PartwayData(d, n);
    forall k | 0 <= k < |steps[n..]| ensures Applied(Partway(d, n), steps[n..][k]) {
      MigrationOrder(d, n + k);
      SingleRow(d, Partway(d, n).commentary, PruneIds(d)[..if n <= 28 then 0 else n - 28], steps[n..][k].entry);
    }
    RepeatChangesNothing(Partway(d, n), steps[n..]);
    assert steps == steps[..n] + steps[n..];
    StepsConcat(d, steps[..n], steps[n..]);
  }

  lemma SingleRow(d: State, later: Rows, done: seq<int>, entry: int)
    requires RowsBelow(d.commentary, d.entryBound, d.rowBound) && OneRowEach(d.commentary)
    requires PrunedUpTo(d.commentary, later, done, d.rowBound)
    ensures DownToOne(later, entry, d.rowBound)
  {
    var kept := Kept(later, entry, d.rowBound);
    if kept.Some? {
      assert kept.value in IdsOf(later, entry, false);
      hide Kept;
    }
  }

  const V01_SCHEMA: Schema := {
    Has(DiaryEntry), Has(PersonaPrompt), Has(EntryCommentary), Has(AggregateReport), Has(ChatMessage), Has(ChatSession),
    Has(RegenJob), Has(RegenJobItem), Col(Model), Col(SessionId), Ix(OneActivePrompt), Ix(CommentaryByEntry),
    Ix(MessagesByThread), Ix(MessagesBySession), Ix(OneRunningJob), Ix(ItemsByJob)}

  /** An entry with two successful reflections, the later one with the higher id. */
  const TWO_REFLECTIONS: Rows := map[1 := HistoricRow(1, true, "a"), 2 := HistoricRow(1, true, "b")]

  lemma TwoReflectionsAgree(e: int)
    ensures Agree(StampsOf(TWO_REFLECTIONS, e))
  {
    var stamps := StampsOf(TWO_REFLECTIONS, e);
    if e == 1 {
      assert TextLess("a", "b");
      assert stamps[1] == "a" && stamps[2] == "b";
      assert LatestPick(stamps, 2) && HighestPick(stamps, 2);
    } else {
      forall k: int ensures k !in stamps.Keys {
      }
    }
  }

  lemma IsV01Schema()
    ensures V01Schema(V01_SCHEMA)
  {
  }

  function TwoReflectionsDb(): State {
    State(V01_SCHEMA, None, None, [], true, TWO_REFLECTIONS, map[], 2, 3)
  }

  lemma TwoReflectionsUpgradable()
    ensures V01Db(TwoReflectionsDb())
  {
    hide V01Schema, Agree, EntryConflicts, EntryIds, Check;
    IsV01Schema();
    var d := TwoReflectionsDb();
    assert RowsBelow(d.commentary, 2, 3);
    assert Agree(d.reports) by { NoReportsAgree(); }
    forall e ensures Agree(StampsOf(d.commentary, e)) {
      TwoReflectionsAgree(e);
    }
    VerifiedExactlyIfRulesAgree(d.commentary, d.reports, 2, 3);
  }

  lemma NoReportsAgree()
    ensures Agree(map[])
  {
  }

  /** The server starting on an unfinished upgrade: killed right behind the last column, the command
      leaves an entry with two reflections, and the server comes up on it as it is. */
  lemma UnfinishedUpgradeIsServed()
    ensures var d := TwoReflectionsDb();
      && V01Db(d) && Start(Partway(d, 28), 0) == Some(Partway(d, 28))
      && Partway(d, 28).commentary == TWO_REFLECTIONS != Partway(d, |Migration(d)|).commentary
  {
    hide V01Db, Partway, Migration, Accepts, Pruned, Operational;
    var d := TwoReflectionsDb();
    TwoReflectionsUpgradable();
    MigrationLength(d);
    PartwayOperational(d, 28);
    PartwayData(d, 28);
    PartwayRows(d, 28);
    UpgradeOutcome(d, |Migration(d)|);
    OneLeft();
  }

  lemma OneLeft()
    ensures Pruned(TWO_REFLECTIONS, 3) != TWO_REFLECTIONS
  {
    PruneKeepsCurrent(TWO_REFLECTIONS, 2, 3, 1);
    assert 1 in TWO_REFLECTIONS && 2 in TWO_REFLECTIONS;
    hide Pruned;
    var after := Pruned(TWO_REFLECTIONS, 3);
    assert !(1 in after && 2 in after);
  }

  // ------------------------------------------------------------------ a fresh install

  ghost predicate FreshDb(d: State) {
    d.schema == {} && d.locked.None? && d.bootstrap.None? && d.prompts == [] && d.commentary == map[]
  }

  lemma FreshOrder(n: nat)
    requires n < |FRESH_STEPS|
    ensures |FRESH_STEPS| == 28 && FRESH_STEPS[0] == RecordBootstrap && FRESH_STEPS[27] == SeedAnalyst
    ensures FRESH_STEPS[n] == SeedAnalyst <==> n == 27
    ensures FRESH_STEPS[n] == RecordBootstrap <==> n == 0
    ensures FRESH_STEPS[n] == InsertControlRow <==> n == 15
    ensures FRESH_STEPS[n] != LockForBootstrap && !FRESH_STEPS[n].PruneEntry?
    ensures 0 < n < 27 ==> FRESH_STEPS[n] == BOOTSTRAP_STEPS[n + 1]
    ensures |BOOTSTRAP_STEPS| == 28
  {
  }

  lemma FreshResumable()
    ensures Resumable(FRESH_STEPS)
  {
    forall k | 0 <= k < |FRESH_STEPS| && FRESH_STEPS[k] == SeedAnalyst ensures exists j :: 0 <= j < k && FRESH_STEPS[j] == RecordBootstrap {
      FreshOrder(k);
      assert FRESH_STEPS[0] == RecordBootstrap;
    }
  }

  /** Without reflections there is nothing to prune. */
  lemma NoPruneSteps(d: State)
    requires d.commentary == map[]
    ensures PruneIds(d) == [] && FreshSteps(d) == FRESH_STEPS
  {
    NoEntryIds(d.commentary, false, d.entryBound);
  }

  function FreshPartway(d: State, n: nat): State {
    Steps(d, UpTo(FRESH_STEPS, n))
  }

  lemma FreshFurther(d: State, n: nat)
    requires n < |FRESH_STEPS|
    ensures FreshPartway(d, n + 1) == Do(FreshPartway(d, n), FRESH_STEPS[n])
  {
    StepsFurther(d, FRESH_STEPS, n);
  }

  /** No prompt before the last statement, exactly the seeded one after it. */
  lemma {:induction false} FreshData(d: State, n: nat)
    requires FreshDb(d) && n <= |FRESH_STEPS|
    ensures var p := FreshPartway(d, n);
      && p.prompts == (if n == |FRESH_STEPS| then [ANALYST] else [])
      && p.bootstrap == (if n == 0 then None else Some(Bootstrap(true, n == |FRESH_STEPS|, true)))
      && (n == 0 ==> p.schema == {}) && p.commentary == map[]
      && p.locked == if n <= 15 then None else Some(false)
  {
    if n > 0 {
      var m := n - 1;
      FreshData(d, m);
      FreshOrder(m);
      FreshFurther(d, m);
      hide FreshPartway;
    }
  }

  /** The server started again and again on a fresh database, killed each time after so many
      statements. */
  ghost function AfterStarts(d: State, crashes: seq<nat>): Option<State> {
    if crashes == [] then Some(d)
    else
      var n := |crashes| - 1;
      match AfterStarts(d, crashes[..n])
      case None => None
      case Some(p) => Start(p, crashes[n])
  }

  lemma FreshApplied(d: State, n: nat, k: nat)
    requires n <= |FRESH_STEPS| && k < n
    ensures Applied(FreshPartway(d, n), FRESH_STEPS[k])
  {
    hide Steps, Do, Applied, Resumable;
    FreshResumable();
    ResumablePrefix(FRESH_STEPS, n);
    assert UpTo(FRESH_STEPS, n) == FRESH_STEPS[..n];
    AllApplied(d, FRESH_STEPS[..n], k);
  }

  /** Only known features, each with the table it belongs to. */
  ghost predicate WellFormed(s: Schema) {
    && (forall f :: f in s ==> !f.Unknown?)
    && (forall c :: Col(c) in s ==> Has(ColumnTable(c)) in s)
    && (forall i :: Ix(i) in s ==> Has(IndexTable(i)) in s)
  }

  /** The table a statement's feature needs. */
  function Needs(step: Step): Option<TableName> {
    match step
    case AddColumn(c) => Some(ColumnTable(c))
    case CreateIndex(i) => Some(IndexTable(i))
    case _ => None
  }

  lemma WellFormedStep(d: State, step: Step)
    requires WellFormed(d.schema) && (Needs(step).Some? ==> Has(Needs(step).value) in d.schema)
    ensures WellFormed(Do(d, step).schema)
  {
  }

  /** Every column and index statement comes after the one that creates its table. */
  lemma TableFirst(n: nat)
    requires n < |FRESH_STEPS| && Needs(FRESH_STEPS[n]).Some?
    ensures exists k :: 0 <= k < n && FRESH_STEPS[k] == CreateTable(Needs(FRESH_STEPS[n]).value)
  {
    assert FRESH_STEPS[2] == CreateTable(PersonaPrompt) && FRESH_STEPS[4] == CreateTable(EntryCommentary);
    assert FRESH_STEPS[7] == CreateTable(ChatMessage) && FRESH_STEPS[10] == CreateTable(RegenJob);
    assert FRESH_STEPS[12] == CreateTable(RegenJobItem) && FRESH_STEPS[17] == CreateTable(EntrySnapshot);
  }

  lemma {:induction false} FreshWellFormed(d: State, n: nat)
    requires FreshDb(d) && n <= |FRESH_STEPS|
    ensures WellFormed(FreshPartway(d, n).schema) && (n > 0 ==> Has(BootstrapState) in FreshPartway(d, n).schema)
  {
    if n > 0 {
      var m := n - 1;
      FreshWellFormed(d, m);
      FreshOrder(m);
      FreshData(d, m);
      FreshFurther(d, m);
      var step := FRESH_STEPS[m];
      if Needs(step).Some? {
        TableFirst(m);
        var k :| 0 <= k < m && FRESH_STEPS[k] == CreateTable(Needs(step).value);
        FreshApplied(d, m, k);
      }
      WellFormedStep(FreshPartway(d, m), step);
      hide FreshPartway, WellFormed, FreshDb;
      assert m > 0 ==> Has(BootstrapState) in Do(FreshPartway(d, m), step).schema;
    }
  }

  lemma FullSchema(s: Schema)
    requires WellFormed(s)
    requires (forall t :: Has(t) in s) && (forall c :: Col(c) in s) && (forall i :: Ix(i) in s)
    ensures Accepts(s, true)
  {
  }

  /** Where the schema script creates a table. */
  function TableStep(t: TableName): nat {
    match t
    case DiaryEntry => 2 case PersonaPrompt => 3 case EntryCommentary => 5 case AggregateReport => 7 case ChatMessage => 8
    case ChatSession => 10 case RegenJob => 11 case RegenJobItem => 13 case MaintenanceControl => 15 case GenerationLease => 17
    case EntrySnapshot => 18 case BootstrapState => 1
  }

  function ColumnStep(c: Column): nat {
    match c
    case Model => 20 case PresetKey => 21 case SessionId => 22 case SnapshotCount => 24
    case FormatVersion => 25 case Fingerprint => 26 case Baseline => 27
  }

  function IndexStep(i: Index): nat {
    match i
    case OneActivePrompt => 4 case CommentaryByEntry => 6 case MessagesByThread => 9 case OneRunningJob => 12
    case ItemsByJob => 14 case SnapshotByJob => 19 case MessagesBySession => 23
  }

  lemma ScriptHasAll(t: TableName, c: Column, i: Index)
    ensures |BOOTSTRAP_STEPS| == 28 && BOOTSTRAP_STEPS[16] == InsertControlRow
    ensures t != BootstrapState ==> 2 <= TableStep(t) && BOOTSTRAP_STEPS[TableStep(t)] == CreateTable(t)
    ensures BOOTSTRAP_STEPS[ColumnStep(c)] == AddColumn(c)
    ensures BOOTSTRAP_STEPS[IndexStep(i)] == CreateIndex(i)
  {
  }

  lemma AllPresent(d: State)
    requires WellFormed(d.schema) && Has(BootstrapState) in d.schema && |BOOTSTRAP_STEPS| == 28
    requires forall k :: 2 <= k < 28 ==> Applied(d, BOOTSTRAP_STEPS[k])
    ensures Accepts(d.schema, true) && d.locked.Some?
  {
    hide Accepts, WellFormed;
    forall t, c, i ensures Has(t) in d.schema && Col(c) in d.schema && Ix(i) in d.schema {
      ScriptHasAll(t, c, i);
      assert t != BootstrapState ==> Applied(d, BOOTSTRAP_STEPS[TableStep(t)]);
      assert Applied(d, BOOTSTRAP_STEPS[ColumnStep(c)]) && Applied(d, BOOTSTRAP_STEPS[IndexStep(i)]);
    }
    ScriptHasAll(DiaryEntry, Model, OneActivePrompt);
    assert Applied(d, BOOTSTRAP_STEPS[16]);
    FullSchema(d.schema);
  }

  /** An undisturbed first start ends with a verified v0.2 database and the one seeded prompt. */
  lemma FreshOutcome(d: State)
    requires FreshDb(d)
    ensures Operational(FreshPartway(d, |FRESH_STEPS|)) && FreshPartway(d, |FRESH_STEPS|).prompts == [ANALYST]
    ensures FreshPartway(d, |FRESH_STEPS|).locked == Some(false)
  {
    FreshOrder(0);
    var after := FreshPartway(d, 28);
    FreshData(d, 28);
    FreshWellFormed(d, 28);
    forall k | 2 <= k < 28 ensures Applied(after, BOOTSTRAP_STEPS[k]) {
      FreshOrder(k - 1);
      FreshApplied(d, 28, k - 1);
    }
    AllPresent(after);
  }

  /** Exactly one seeded prompt: however often the first start is killed and repeated, and however
      often the server starts again afterwards, a fresh database ends up with the seeded prompt alone,
      and has none before the first start that got through. */
  lemma {:induction false} FreshSeedsExactlyOnce(d: State, crashes: seq<nat>)
    requires FreshDb(d)
    ensures AfterStarts(d, crashes) == Some(FreshPartway(d, Furthest(crashes)))
    ensures AfterStarts(d, crashes).value.prompts == if Furthest(crashes) >= |FRESH_STEPS| then [ANALYST] else []
  {
    FreshClamped(d, Furthest(crashes));
    if crashes != [] {
      var n := |crashes| - 1;
      FreshSeedsExactlyOnce(d, crashes[..n]);
      StartAgain(d, Furthest(crashes[..n]), crashes[n]);
    }
    hide FreshDb, Operational, Start;
  }

  lemma FreshClamped(d: State, n: nat)
    requires FreshDb(d)
    ensures FreshPartway(d, n).prompts == if n >= |FRESH_STEPS| then [ANALYST] else []
  {
    var m := if n < |FRESH_STEPS| then n else |FRESH_STEPS|;
    assert FreshPartway(d, n) == FreshPartway(d, m);
    FreshData(d, m);
  }

  /** One more start, killed after n statements, when m had been reached. */
  lemma StartAgain(d: State, m: nat, n: nat)
    requires FreshDb(d)
    ensures Start(FreshPartway(d, m), n) == Some(FreshPartway(d, Max(m, n)))
  {
    hide FreshDb, Operational, FreshSteps, FreshPartway, Steps;
    var end := |FRESH_STEPS|;
    FreshPastTheEnd(d, m);
    FreshPastTheEnd(d, Max(m, n));
    FreshOutcome(d);
    var reached := if m < end then m else end;
    var p := FreshPartway(d, reached);
    FreshData(d, reached);
    NoPruneSteps(p);
    FreshAgain(d, m, n);
  }

  lemma FreshPastTheEnd(d: State, n: nat)
    ensures n >= |FRESH_STEPS| ==> FreshPartway(d, n) == FreshPartway(d, |FRESH_STEPS|)
  {
    hide Steps;
  }

  lemma FreshAgain(d: State, m: nat, n: nat)
    ensures Steps(FreshPartway(d, m), UpTo(FRESH_STEPS, n)) == FreshPartway(d, Max(m, n))
  {
    FreshResumable();
    hide Steps;
    ResumeIsMax(d, FRESH_STEPS, m, n);
  }

  /** The very first start. */
  lemma FreshStart(d: State, upTo: nat)
    requires FreshDb(d)
    ensures FreshSteps(d) == FRESH_STEPS && Start(d, upTo) == Some(FreshPartway(d, upTo))
    ensures upTo >= |FRESH_STEPS| ==>
      Operational(FreshPartway(d, upTo)) && FreshPartway(d, upTo).prompts == [ANALYST] && FreshPartway(d, upTo).locked == Some(false)
  {
    NoPruneSteps(d);
    FreshOutcome(d);
    hide Operational, FreshSteps;
  }
}
