/** The change of the "current result" rule from v0.1 (the unique latest creation time) to v0.2 (the
    highest successful id), the check that both pick the same row, and the pruning that follows. */
module ResultSelection {
  import opened Tables
  import opened Archive

  datatype HistoricRow = HistoricRow(entryId: int, ok: bool, createdAt: string)

  /** The ids and creation times of one target's successful rows. */
  type Stamps = map<int, string>

  ghost predicate Below(ids: set<int>, bound: nat) {
    forall k :: k in ids ==> 0 <= k < bound
  }

  // ------------------------------------------------------------------ the two rules

  /** v0.1: the row whose creation time is later than every other's; none if the latest is shared. */
  predicate LatestPick(stamps: Stamps, id: int) {
    id in stamps && forall k :: k in stamps && k != id ==> TextLess(stamps[k], stamps[id])
  }

  /** v0.2: the row with the highest id. */
  predicate HighestPick(stamps: Stamps, id: int) {
    id in stamps && forall k :: k in stamps ==> k <= id
  }

  /** A row with the maximal creation time. */
  function Latest(stamps: Stamps, bound: nat): (r: Option<int>)
    ensures r.Some? ==> r.value in stamps && 0 <= r.value < bound
    ensures r.None? <==> forall k :: k in stamps ==> k < 0 || k >= bound
  {
    if bound == 0 then None
    else
      var before := Latest(stamps, bound - 1);
      if bound - 1 !in stamps then before
      else if before.Some? && TextLess(stamps[bound - 1], stamps[before.value]) then before
      else Some(bound - 1)
  }

  lemma {:induction false} LatestIsMaximal(stamps: Stamps, bound: nat)
    ensures Latest(stamps, bound).Some? ==>
      forall k :: k in stamps && 0 <= k < bound ==> !TextLess(stamps[Latest(stamps, bound).value], stamps[k])
  {
    if bound > 0 {
      LatestIsMaximal(stamps, bound - 1);
      var before, now := Latest(stamps, bound - 1), Latest(stamps, bound);
      if now.Some? {
        forall k | k in stamps && 0 <= k < bound ensures !TextLess(stamps[now.value], stamps[k]) {
          TextLessTotal(stamps[now.value], stamps[k]);
          if before.Some? && bound - 1 in stamps && now.value == bound - 1 && k < bound - 1 {
            TextLessTotal(stamps[before.value], stamps[bound - 1]);
            if TextLess(stamps[bound - 1], stamps[k]) && TextLess(stamps[before.value], stamps[bound - 1]) {
              TextLessTransitive(stamps[before.value], stamps[bound - 1], stamps[k]);
            }
          }
        }
      }
    }
  }

  function HighestId(ids: set<int>, bound: nat): (r: Option<int>)
    ensures r.Some? ==> r.value in ids && 0 <= r.value < bound && forall k :: k in ids && 0 <= k < bound ==> k <= r.value
    ensures r.None? <==> forall k :: k in ids ==> k < 0 || k >= bound
  {
    if bound == 0 then None
    else if bound - 1 in ids then Some(bound - 1)
    else HighestId(ids, bound - 1)
  }

  // ------------------------------------------------------------------ the compatibility check

  datatype Conflict = Tied(ids: set<int>) | Mismatch(latest: int, highest: int)

  /** `_check_target_result_selection_compatibility`. */
  function Check(stamps: Stamps, bound: nat): Option<Conflict> {
    var latest := Latest(stamps, bound);
    if latest.None? then None
    else
      var tied := set k | k in stamps && stamps[k] == stamps[latest.value];
      var highest := HighestId(stamps.Keys, bound);
      if tied != {latest.value} then Some(Tied(tied))
      else if highest != latest then Some(Mismatch(latest.value, if highest.Some? then highest.value else 0))
      else None
  }

  /** The latest row is the v0.1 pick exactly if nobody shares its creation time. */
  lemma LatestPickIsUnique(stamps: Stamps, bound: nat)
    requires Below(stamps.Keys, bound) && Latest(stamps, bound).Some?
    ensures var latest := Latest(stamps, bound).value;
      && ((set k | k in stamps && stamps[k] == stamps[latest]) == {latest} <==> LatestPick(stamps, latest))
      && (forall id :: LatestPick(stamps, id) ==> id == latest)
  {
    var latest := Latest(stamps, bound).value;
    var tied := set k | k in stamps && stamps[k] == stamps[latest];
    LatestIsMaximal(stamps, bound);
    forall k | k in stamps ensures !TextLess(stamps[latest], stamps[k]) {
      assert k in stamps.Keys;
    }
    forall k: int | k in stamps ensures TextLess(stamps[k], stamps[latest]) <==> k !in tied {
      TextLessTotal(stamps[k], stamps[latest]);
    }
    assert latest in tied;
    if LatestPick(stamps, latest) {
      forall k: int ensures k in tied <==> k in {latest} {
      }
    }
    if tied == {latest} {
      forall k: int | k in stamps && k != latest ensures TextLess(stamps[k], stamps[latest]) {
        assert k !in {latest};
      }
    }
    forall id | LatestPick(stamps, id) ensures id == latest {
      TextLessTotal(stamps[id], stamps[latest]);
    }
  }

  /** No row of the target was created later. */
  predicate LatestShared(stamps: Stamps, id: int) {
    id in stamps && forall k :: k in stamps ==> !TextLess(stamps[id], stamps[k])
  }

  lemma TiedAreLatest(stamps: Stamps, bound: nat)
    requires Below(stamps.Keys, bound) && Latest(stamps, bound).Some?
    ensures forall k: int :: k in stamps && stamps[k] == stamps[Latest(stamps, bound).value] <==> LatestShared(stamps, k)
  {
    var latest := Latest(stamps, bound).value;
    LatestIsMaximal(stamps, bound);
    forall k | k in stamps ensures !TextLess(stamps[latest], stamps[k]) {
      assert k in stamps.Keys;
    }
    forall k: int | k in stamps ensures stamps[k] == stamps[latest] <==> LatestShared(stamps, k) {
      TextLessTotal(stamps[k], stamps[latest]);
    }
  }

  /** The check passes a target exactly if it has no successful row or both rules pick the same one;
      a conflict it reports is real and says which rows. */
  lemma CheckIsExact(stamps: Stamps, bound: nat)
    requires Below(stamps.Keys, bound)
    ensures Check(stamps, bound) == None <==> stamps.Keys == {} || exists id :: LatestPick(stamps, id) && HighestPick(stamps, id)
    ensures Check(stamps, bound).Some? && Check(stamps, bound).value.Tied? ==> !exists id :: LatestPick(stamps, id)
    ensures Check(stamps, bound).Some? && Check(stamps, bound).value.Mismatch? ==>
      var c := Check(stamps, bound).value;
      LatestPick(stamps, c.latest) && HighestPick(stamps, c.highest) && c.latest != c.highest
    ensures Check(stamps, bound).Some? && Check(stamps, bound).value.Tied? ==>
      (forall k: int :: k in Check(stamps, bound).value.ids <==> LatestShared(stamps, k))
  {
    var latest := Latest(stamps, bound);
    if latest.None? {
      forall k: int ensures k !in stamps.Keys {
      }
    } else {
      LatestPickIsUnique(stamps, bound);
      TiedAreLatest(stamps, bound);
      var highest := HighestId(stamps.Keys, bound);
      assert latest.value in stamps.Keys;
      assert HighestPick(stamps, highest.value) by {
        forall k | k in stamps ensures k <= highest.value {
          assert k in stamps.Keys;
        }
      }
      if id :| LatestPick(stamps, id) && HighestPick(stamps, id) {
        assert id == latest.value && id == highest.value;
      }
    }
  }

  // ------------------------------------------------------------------ every target

  type Rows = map<int, HistoricRow>

  function StampsOf(rows: Rows, entry: int): Stamps {
    map k | k in rows && rows[k].entryId == entry && rows[k].ok :: rows[k].createdAt
  }

  predicate HasRow(rows: Rows, entry: int, okOnly: bool) {
    exists k :: k in rows && rows[k].entryId == entry && (okOnly ==> rows[k].ok)
  }

  /** `SELECT DISTINCT entry_id ... ORDER BY entry_id`, below a bound on entry ids. */
  function EntryIds(rows: Rows, okOnly: bool, bound: nat): (ids: seq<int>)
    ensures forall e :: e in ids <==> 0 <= e < bound && HasRow(rows, e, okOnly)
    ensures forall n :: 0 <= n < |ids| ==> 0 <= ids[n] < bound
    ensures forall m, n :: 0 <= m < n < |ids| ==> ids[m] < ids[n]
  {
    if bound == 0 then []
    else if HasRow(rows, bound - 1, okOnly) then EntryIds(rows, okOnly, bound - 1) + [bound - 1]
    else EntryIds(rows, okOnly, bound - 1)
  }

  /** The target of a conflict: an entry, or the report. */
  datatype Found = Found(entry: Option<int>, conflict: Conflict)

  function EntryConflicts(rows: Rows, ids: seq<int>, bound: nat): seq<Found> {
    if ids == [] then []
    else
      var n := |ids| - 1;
      var c := Check(StampsOf(rows, ids[n]), bound);
      EntryConflicts(rows, ids[..n], bound) + if c.Some? then [Found(Some(ids[n]), c.value)] else []
  }

  /** `verify_current_result_selection_compatibility`: all conflicts at once, in entry order. */
  method Verify(commentary: Rows, reports: Stamps, entryBound: nat, rowBound: nat) returns (conflicts: seq<Found>)
    ensures conflicts == EntryConflicts(commentary, EntryIds(commentary, true, entryBound), rowBound)
      + (if Check(reports, rowBound).Some? then [Found(None, Check(reports, rowBound).value)] else [])
  {
    conflicts := [];
    var ids := EntryIds(commentary, true, entryBound);
    var n := 0;
    while n < |ids|
      invariant n <= |ids|
      invariant conflicts == EntryConflicts(commentary, ids[..n], rowBound)
    {
      assert ids[..n + 1][..n] == ids[..n];
      var c := Check(StampsOf(commentary, ids[n]), rowBound);
      if c.Some? {
        conflicts := conflicts + [Found(Some(ids[n]), c.value)];
      }
      n := n + 1;
    }
    assert ids[..n] == ids;
    var report := Check(reports, rowBound);
    if report.Some? {
      conflicts := conflicts + [Found(None, report.value)];
    }
  }

  lemma {:induction false} NoEntryConflicts(rows: Rows, ids: seq<int>, bound: nat)
    ensures EntryConflicts(rows, ids, bound) == [] <==> forall n :: 0 <= n < |ids| ==> Check(StampsOf(rows, ids[n]), bound) == None
  {
    if ids != [] {
      var n := |ids| - 1;
      NoEntryConflicts(rows, ids[..n], bound);
      assert forall m :: 0 <= m < n ==> ids[m] == ids[..n][m];
    }
  }

  predicate ConflictOf(rows: Rows, ids: seq<int>, bound: nat, f: Found) {
    f.entry.Some? && f.entry.value in ids && Check(StampsOf(rows, f.entry.value), bound) == Some(f.conflict)
  }

  /** What is reported is exactly the conflicts of the listed entries, in their order. */
  lemma {:induction false} ConflictsAre(rows: Rows, ids: seq<int>, bound: nat)
    requires forall m, n :: 0 <= m < n < |ids| ==> ids[m] < ids[n]
    ensures forall f :: f in EntryConflicts(rows, ids, bound) <==> ConflictOf(rows, ids, bound, f)
    ensures forall m, n :: 0 <= m < n < |EntryConflicts(rows, ids, bound)| ==>
      var found := EntryConflicts(rows, ids, bound);
      found[m].entry.Some? && found[n].entry.Some? && found[m].entry.value < found[n].entry.value
  {
    if ids != [] {
      var n := |ids| - 1;
      var before, found, last := EntryConflicts(rows, ids[..n], bound), EntryConflicts(rows, ids, bound), Check(StampsOf(rows, ids[n]), bound);
      ConflictsAre(rows, ids[..n], bound);
      hide Check, StampsOf;
      assert found == before + if last.Some? then [Found(Some(ids[n]), last.value)] else [];
      assert ids == ids[..n] + [ids[n]];
      forall f ensures f in found <==> ConflictOf(rows, ids, bound, f) {
        assert f in found <==> f in before || (last.Some? && f == Found(Some(ids[n]), last.value));
        assert f in before <==> ConflictOf(rows, ids[..n], bound, f);
      }
      forall m | 0 <= m < |before| ensures before[m].entry.Some? && before[m].entry.value < ids[n] {
        assert before[m] in before;
        assert ConflictOf(rows, ids[..n], bound, before[m]);
        var k :| 0 <= k < n && ids[..n][k] == before[m].entry.value;
        assert ids[k] < ids[n];
      }
    }
  }

  /** Both rules pick the same row of a target, or it has none. */
  ghost predicate Agree(stamps: Stamps) {
    stamps.Keys == {} || exists id :: LatestPick(stamps, id) && HighestPick(stamps, id)
  }

  ghost predicate RowsBelow(rows: Rows, entryBound: nat, rowBound: nat) {
    forall k :: k in rows ==> 0 <= k < rowBound && 0 <= rows[k].entryId < entryBound
  }

  /** The verification finds no conflict exactly if for every entry, and for the report, the old rule
      and the new one agree. */
  lemma VerifiedExactlyIfRulesAgree(commentary: Rows, reports: Stamps, entryBound: nat, rowBound: nat)
    requires RowsBelow(commentary, entryBound, rowBound) && Below(reports.Keys, rowBound)
    ensures EntryConflicts(commentary, EntryIds(commentary, true, entryBound), rowBound)
      + (if Check(reports, rowBound).Some? then [Found(None, Check(reports, rowBound).value)] else []) == []
      <==> Agree(reports) && forall e :: Agree(StampsOf(commentary, e))
  {
    var ids := EntryIds(commentary, true, entryBound);
    NoEntryConflicts(commentary, ids, rowBound);
    CheckIsExact(reports, rowBound);
    forall e ensures Agree(StampsOf(commentary, e)) <==> Check(StampsOf(commentary, e), rowBound) == None {
      CheckIsExact(StampsOf(commentary, e), rowBound);
    }
    forall e | e !in ids ensures Agree(StampsOf(commentary, e)) {
      EntryWithoutRows(commentary, e, entryBound, rowBound);
    }
    forall e | e in ids ensures exists n :: 0 <= n < |ids| && ids[n] == e {
    }
  }

  lemma EntryWithoutRows(rows: Rows, e: int, entryBound: nat, rowBound: nat)
    requires RowsBelow(rows, entryBound, rowBound) && e !in EntryIds(rows, true, entryBound)
    ensures StampsOf(rows, e).Keys == {}
  {
    forall k: int ensures k !in StampsOf(rows, e) {
    }
  }

  lemma {:induction false} NoEntryIds(rows: Rows, okOnly: bool, bound: nat)
    requires rows == map[]
    ensures EntryIds(rows, okOnly, bound) == []
  {
    if bound > 0 {
      NoEntryIds(rows, okOnly, bound - 1);
    }
  }

  // ------------------------------------------------------------------ pruning

  function IdsOf(rows: Rows, entry: int, okOnly: bool): set<int> {
    set k | k in rows && rows[k].entryId == entry && (okOnly ==> rows[k].ok)
  }

  /** An entry's current reflection: the highest id among its successful rows. */
  function CurrentRow(rows: Rows, entry: int, bound: nat): Option<int> {
    HighestId(IdsOf(rows, entry, true), bound)
  }

  /** The row a prune keeps: the current one, or the highest of any status if none succeeded. */
  function Kept(rows: Rows, entry: int, bound: nat): Option<int> {
    var current := CurrentRow(rows, entry, bound);
    if current.Some? then current else HighestId(IdsOf(rows, entry, false), bound)
  }

  /** The rule of the prune: the highest successful row, or the highest of any status if none is. */
  lemma KeptIs(rows: Rows, entry: int, entryBound: nat, bound: nat, k: int)
    requires RowsBelow(rows, entryBound, bound)
    ensures Kept(rows, entry, bound) == Some(k) <==>
      && k in rows && rows[k].entryId == entry
      && (HasRow(rows, entry, true) ==> rows[k].ok)
      && forall l :: l in rows && rows[l].entryId == entry && (HasRow(rows, entry, true) ==> rows[l].ok) ==> l <= k
  {
    var ok, any := IdsOf(rows, entry, true), IdsOf(rows, entry, false);
    assert forall l :: l in any <==> l in rows && rows[l].entryId == entry;
    assert forall l :: l in ok <==> l in any && rows[l].ok;
    assert HasRow(rows, entry, true) <==> CurrentRow(rows, entry, bound).Some? by {
      if HasRow(rows, entry, true) {
        var l :| l in rows && rows[l].entryId == entry && rows[l].ok;
        assert l in ok;
      }
    }
  }

  function Pruned(rows: Rows, bound: nat): Rows {
    map k | k in rows && Some(k) == Kept(rows, rows[k].entryId, bound) :: rows[k]
  }

  function WithoutOthers(rows: Rows, entry: int, keep: int): Rows {
    map k | k in rows && (rows[k].entryId != entry || k == keep) :: rows[k]
  }

  /** One round of the prune: every row of an entry but the kept one is deleted. */
  function PrunedAt(rows: Rows, entry: int, bound: nat): Rows {
    match Kept(rows, entry, bound)
    case None => rows
    case Some(keep) => WithoutOthers(rows, entry, keep)
  }

  /** Both tables hold the same rows of an entry. */
  ghost predicate SameRowsOf(rows: Rows, later: Rows, entry: int) {
    && (forall k :: k in rows && rows[k].entryId == entry ==> k in later && later[k] == rows[k])
    && (forall k :: k in later && later[k].entryId == entry ==> k in rows && rows[k] == later[k])
  }

  lemma OthersUntouched(rows: Rows, later: Rows, entry: int, bound: nat)
    requires SameRowsOf(rows, later, entry)
    ensures Kept(later, entry, bound) == Kept(rows, entry, bound) && CurrentRow(later, entry, bound) == CurrentRow(rows, entry, bound)
  {
    forall okOnly, k: int ensures k in IdsOf(later, entry, okOnly) <==> k in IdsOf(rows, entry, okOnly) {
    }
    assert IdsOf(later, entry, true) == IdsOf(rows, entry, true);
    assert IdsOf(later, entry, false) == IdsOf(rows, entry, false);
  }

  /** Rows of the entries handled so far are pruned, the others are as they were. */
  ghost predicate PrunedUpTo(rows: Rows, later: Rows, done: seq<int>, bound: nat) {
    forall k :: (k in later <==> k in rows && (rows[k].entryId in done ==> Some(k) == Kept(rows, rows[k].entryId, bound)))
             && (k in later ==> later[k] == rows[k])
  }

  /** `migrate_prune_entry_commentary_history`. */
  method PruneHistory(rows: Rows, entryBound: nat, rowBound: nat) returns (later: Rows)
    requires RowsBelow(rows, entryBound, rowBound)
    ensures later == Pruned(rows, rowBound)
  {
    later := rows;
    var ids := EntryIds(rows, false, entryBound);
    var n := 0;
    while n < |ids|
      invariant n <= |ids|
      invariant PrunedUpTo(rows, later, ids[..n], rowBound)
    {
      var entry := ids[n];
      OneMorePruned(rows, later, ids, n, entryBound, rowBound);
      var keep := CurrentRow(later, entry, rowBound);
      if keep.None? {
        keep := HighestId(IdsOf(later, entry, false), rowBound);
      }
      later := WithoutOthers(later, entry, keep.value);
      n := n + 1;
    }
    assert ids[..n] == ids;
    AllPruned(rows, later, ids, entryBound, rowBound);
  }

  lemma NotYetDone(ids: seq<int>, n: nat)
    requires n < |ids| && forall a, b :: 0 <= a < b < |ids| ==> ids[a] < ids[b]
    ensures ids[n] !in ids[..n]
    ensures forall e :: e in ids[..n + 1] <==> e in ids[..n] || e == ids[n]
  {
    assert ids[..n + 1] == ids[..n] + [ids[n]];
  }

  /** A round handles one more entry; what it keeps is what it would have kept at the start. */
  lemma OneMorePruned(rows: Rows, later: Rows, ids: seq<int>, n: nat, entryBound: nat, bound: nat)
    requires RowsBelow(rows, entryBound, bound) && ids == EntryIds(rows, false, entryBound) && n < |ids|
    requires PrunedUpTo(rows, later, ids[..n], bound)
    ensures Kept(later, ids[n], bound).Some? && PrunedUpTo(rows, PrunedAt(later, ids[n], bound), ids[..n + 1], bound)
  {
    NotYetDone(ids, n);
    OthersUntouched(rows, later, ids[n], bound);
    RowIsKept(rows, ids[n], entryBound, bound);
    DonePrune(rows, later, ids, n, Kept(rows, ids[n], bound).value, bound);
  }

  lemma RowIsKept(rows: Rows, entry: int, entryBound: nat, rowBound: nat)
    requires RowsBelow(rows, entryBound, rowBound) && HasRow(rows, entry, false)
    ensures Kept(rows, entry, rowBound).Some?
    ensures Kept(rows, entry, rowBound).value in rows && rows[Kept(rows, entry, rowBound).value].entryId == entry
  {
    var k :| k in rows && rows[k].entryId == entry;
    assert k in IdsOf(rows, entry, false);
  }

  lemma DonePrune(rows: Rows, later: Rows, ids: seq<int>, n: nat, keep: int, bound: nat)
    requires n < |ids| && PrunedUpTo(rows, later, ids[..n], bound) && Kept(rows, ids[n], bound) == Some(keep)
    requires ids[n] !in ids[..n] && forall e :: e in ids[..n + 1] <==> e in ids[..n] || e == ids[n]
    ensures PrunedUpTo(rows, WithoutOthers(later, ids[n], keep), ids[..n + 1], bound)
  {
    hide Kept;
  }

  lemma AllPruned(rows: Rows, later: Rows, ids: seq<int>, entryBound: nat, bound: nat)
    requires RowsBelow(rows, entryBound, bound) && PrunedUpTo(rows, later, ids, bound) && ids == EntryIds(rows, false, entryBound)
    ensures later == Pruned(rows, bound)
  {
    hide Kept;
    forall k: int ensures k in later <==> k in Pruned(rows, bound) {
      if k in rows {
        assert HasRow(rows, rows[k].entryId, false);
      }
    }
    forall k: int | k in later ensures later[k] == Pruned(rows, bound)[k] {
    }
    SameMap(later, Pruned(rows, bound));
  }

  /** A prune keeps every entry's current reflection, never takes an entry's only row, and leaves
      exactly one row for every entry that had any. */
  lemma PruneKeepsCurrent(rows: Rows, entryBound: nat, bound: nat, entry: int)
    requires RowsBelow(rows, entryBound, bound)
    ensures CurrentRow(Pruned(rows, bound), entry, bound) == CurrentRow(rows, entry, bound)
    ensures HasRow(rows, entry, false) ==>
      exists k :: k in Pruned(rows, bound) && rows[k].entryId == entry && Pruned(rows, bound)[k] == rows[k]
    ensures forall k, l :: k in Pruned(rows, bound) && l in Pruned(rows, bound) && rows[k].entryId == rows[l].entryId ==> k == l
  {
    var after := Pruned(rows, bound);
    if HasRow(rows, entry, false) {
      RowIsKept(rows, entry, entryBound, bound);
      var kept := Kept(rows, entry, bound).value;
      assert kept in after;
    }
    var before, now := IdsOf(rows, entry, true), IdsOf(after, entry, true);
    var current := CurrentRow(rows, entry, bound);
    forall k: int ensures k in now <==> current == Some(k) {
      if k in now {
        assert k in before && Kept(rows, entry, bound) == Some(k);
      }
      if current == Some(k) {
        assert k in before && k in rows && Kept(rows, entry, bound) == Some(k) && k in after;
      }
    }
    assert current.Some? ==> current.value in now;
    var later := CurrentRow(after, entry, bound);
    assert later.Some? ==> later.value in now;
  }

  lemma PrunedKept(rows: Rows, entryBound: nat, bound: nat, entry: int)
    requires RowsBelow(rows, entryBound, bound) && HasRow(rows, entry, false)
    ensures Kept(Pruned(rows, bound), entry, bound) == Kept(rows, entry, bound)
  {
    var after := Pruned(rows, bound);
    RowIsKept(rows, entry, entryBound, bound);
    PruneKeepsCurrent(rows, entryBound, bound, entry);
    var kept := Kept(rows, entry, bound).value;
    assert kept in after;
    assert kept in IdsOf(after, entry, false);
    assert forall k :: k in IdsOf(after, entry, false) ==> k == kept;
  }

  /** Pruning a pruned history changes nothing. */
  lemma PruneIsIdempotent(rows: Rows, entryBound: nat, bound: nat)
    requires RowsBelow(rows, entryBound, bound)
    ensures Pruned(Pruned(rows, bound), bound) == Pruned(rows, bound)
  {
    var once := Pruned(rows, bound);
    forall k: int ensures k in Pruned(once, bound) <==> k in once {
      if k in once {
        assert HasRow(rows, rows[k].entryId, false);
        PrunedKept(rows, entryBound, bound, rows[k].entryId);
      }
    }
    SameMap(Pruned(once, bound), once);
  }

  // ------------------------------------------------------------------ an interrupted prune

  /** Partway through a prune every entry keeps the row the prune would keep, its current reflection
      in particular. */
  lemma PartlyPrunedKept(rows: Rows, later: Rows, done: seq<int>, entryBound: nat, bound: nat, entry: int)
    requires RowsBelow(rows, entryBound, bound) && PrunedUpTo(rows, later, done, bound)
    ensures Kept(later, entry, bound) == Kept(rows, entry, bound)
    ensures CurrentRow(later, entry, bound) == CurrentRow(rows, entry, bound)
    ensures HasRow(later, entry, false) <==> HasRow(rows, entry, false)
  {
    hide Kept, CurrentRow;
    if HasRow(rows, entry, false) {
      RowIsKept(rows, entry, entryBound, bound);
      var kept := Kept(rows, entry, bound).value;
      assert rows[kept].entryId == entry && Some(kept) == Kept(rows, entry, bound);
      assert kept in later && later[kept].entryId == entry;
    }
    if entry in done {
      OthersUntouched(Pruned(rows, bound), later, entry, bound);
      PruneKeepsCurrent(rows, entryBound, bound, entry);
      if HasRow(rows, entry, false) {
        PrunedKept(rows, entryBound, bound, entry);
      } else {
        OthersUntouched(rows, later, entry, bound);
      }
    } else {
      OthersUntouched(rows, later, entry, bound);
    }
  }

  /** A prune interrupted anywhere and run again from the start ends where an undisturbed one does. */
  lemma PruneIsResumable(rows: Rows, later: Rows, done: seq<int>, entryBound: nat, bound: nat)
    requires RowsBelow(rows, entryBound, bound) && PrunedUpTo(rows, later, done, bound)
    ensures Pruned(later, bound) == Pruned(rows, bound)
  {
    hide Kept, CurrentRow;
    forall e ensures Kept(later, e, bound) == Kept(rows, e, bound) {
      PartlyPrunedKept(rows, later, done, entryBound, bound, e);
    }
    forall k: int ensures k in Pruned(later, bound) <==> k in Pruned(rows, bound) {
    }
    forall k: int | k in Pruned(later, bound) ensures Pruned(later, bound)[k] == Pruned(rows, bound)[k] {
      assert k in later;
    }
    SameMap(Pruned(later, bound), Pruned(rows, bound));
  }

  /** The entries a prune goes through are the same after an interrupted one. */
  lemma {:induction false} SameEntryIds(rows: Rows, later: Rows, bound: nat)
    requires forall e :: HasRow(later, e, false) <==> HasRow(rows, e, false)
    ensures EntryIds(later, false, bound) == EntryIds(rows, false, bound)
  {
    hide HasRow;
    if bound > 0 {
      SameEntryIds(rows, later, bound - 1);
    }
  }

  /** A round whose entry is already down to one row deletes nothing, and stays so. */
  ghost predicate DownToOne(rows: Rows, entry: int, bound: nat) {
    Kept(rows, entry, bound).Some? ==> forall k :: k in rows && rows[k].entryId == entry ==> k == Kept(rows, entry, bound).value
  }

  lemma RoundLeavesOne(rows: Rows, entry: int, bound: nat)
    ensures DownToOne(PrunedAt(rows, entry, bound), entry, bound)
    ensures DownToOne(rows, entry, bound) ==> PrunedAt(rows, entry, bound) == rows
  {
    var kept := Kept(rows, entry, bound);
    if kept.Some? {
      var after := WithoutOthers(rows, entry, kept.value);
      OnlyRowIsKept(rows, entry, bound);
      if DownToOne(rows, entry, bound) {
        forall k: int ensures k in after <==> k in rows {
        }
        SameMap(after, rows);
      }
    }
  }

  lemma OnlyRowIsKept(rows: Rows, entry: int, bound: nat)
    requires Kept(rows, entry, bound).Some?
    ensures var keep := Kept(rows, entry, bound).value;
      Kept(WithoutOthers(rows, entry, keep), entry, bound) == Some(keep)
  {
    var keep := Kept(rows, entry, bound).value;
    var after := WithoutOthers(rows, entry, keep);
    assert keep in IdsOf(rows, entry, false);
    assert keep in IdsOf(after, entry, false);
    assert forall okOnly, k :: k in IdsOf(after, entry, okOnly) ==> k == keep && k in IdsOf(rows, entry, okOnly);
    if CurrentRow(rows, entry, bound).Some? {
      assert keep in IdsOf(after, entry, true);
    }
  }

  lemma OneStaysOne(rows: Rows, entry: int, other: int, bound: nat)
    requires DownToOne(rows, entry, bound)
    ensures DownToOne(PrunedAt(rows, other, bound), entry, bound)
  {
    if other == entry {
      RoundLeavesOne(rows, entry, bound);
    } else {
      OthersUntouched(rows, PrunedAt(rows, other, bound), entry, bound);
    }
  }
}
