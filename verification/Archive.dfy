/** The Journal Archive: its canonical order (entry_date ASC, id ASC), the ordered snapshots jobs
    replay, and the as-of context an Entry Reflection request is assembled from. */
module Archive {
  import opened Tables
  import TargetKeys

  datatype Entry = Entry(id: int, date: string, title: string, text: string)

  type Entries = map<int, Entry>

  ghost predicate KeyedById(rows: Entries) {
    forall k :: k in rows ==> rows[k].id == k
  }

  // ------------------------------------------------------------------ canonical order

  /** Text order by code points: SQLite's BINARY collation on UTF-8 and Python's `str` order. */
  predicate TextLess(a: string, b: string) {
    if |b| == 0 then false
    else if |a| == 0 then true
    else if a[0] != b[0] then a[0] < b[0]
    else TextLess(a[1..], b[1..])
  }

  lemma {:induction false} TextLessTransitive(a: string, b: string, c: string)
    requires TextLess(a, b) && TextLess(b, c)
    ensures TextLess(a, c)
  {
    if |a| > 0 && a[0] == b[0] && b[0] == c[0] {
      TextLessTransitive(a[1..], b[1..], c[1..]);
    }
  }

  lemma {:induction false} TextLessTotal(a: string, b: string)
    ensures !(TextLess(a, b) && TextLess(b, a))
    ensures TextLess(a, b) || TextLess(b, a) || a == b
  {
    if |a| > 0 && |b| > 0 && a[0] == b[0] {
      TextLessTotal(a[1..], b[1..]);
      assert a == [a[0]] + a[1..] && b == [b[0]] + b[1..];
    }
  }

  /** A text is less than another if it is a proper beginning of it, or has the smaller character where
      they first differ. */
  predicate DiffersAt(a: string, b: string, k: nat) {
    k <= |a| && k < |b| && a[..k] == b[..k] && (k == |a| || a[k] < b[k])
  }

  lemma FirstDecides(a: string, b: string, k: nat)
    requires k > 0 && (a == "" || b == "" || a[0] != b[0])
    ensures !DiffersAt(a, b, k)
  {
    if a != "" && b != "" && k <= |a| && k < |b| {
      assert a[..k][0] == a[0] && b[..k][0] == b[0];
    }
  }

  lemma {:induction false} TextLessIs(a: string, b: string)
    ensures TextLess(a, b) <==> exists k: nat :: DiffersAt(a, b, k)
  {
    if a == "" || b == "" || a[0] != b[0] {
      assert a[..0] == b[..0];
      if b != "" && (a == "" || a[0] < b[0]) {
        assert DiffersAt(a, b, 0);
      }
      forall k: nat | k > 0 ensures !DiffersAt(a, b, k) {
        FirstDecides(a, b, k);
      }
    } else {
      TextLessIs(a[1..], b[1..]);
      if k: nat :| DiffersAt(a[1..], b[1..], k) {
        assert a[..k + 1] == [a[0]] + a[1..][..k] && b[..k + 1] == [b[0]] + b[1..][..k];
        assert DiffersAt(a, b, k + 1);
      }
      if k: nat :| DiffersAt(a, b, k) {
        assert k > 0;
        assert a[1..][..k - 1] == a[..k][1..] && b[1..][..k - 1] == b[..k][1..];
        assert DiffersAt(a[1..], b[1..], k - 1);
      }
    }
  }

  predicate Before(a: Entry, b: Entry) {
    TextLess(a.date, b.date) || (a.date == b.date && a.id < b.id)
  }

  lemma BeforeTransitive(a: Entry, b: Entry, c: Entry)
    requires Before(a, b) && Before(b, c)
    ensures Before(a, c)
  {
    if TextLess(a.date, b.date) && TextLess(b.date, c.date) {
      TextLessTransitive(a.date, b.date, c.date);
    }
  }

  lemma BeforeTotal(a: Entry, b: Entry)
    ensures !(Before(a, b) && Before(b, a))
    ensures Before(a, b) || Before(b, a) || (a.date == b.date && a.id == b.id)
  {
    TextLessTotal(a.date, b.date);
  }

  /** The list is strictly increasing under (entry_date, id). */
  ghost predicate Chronological(all: seq<Entry>) {
    forall i, j :: 0 <= i < j < |all| ==> Before(all[i], all[j])
  }

  ghost predicate Known(rows: Entries, ids: seq<int>) {
    forall i :: 0 <= i < |ids| ==> ids[i] in rows
  }

  /** `get_entries_in_order`: the rows for exactly the given ids, in the given order; an id that
      no longer resolves is skipped. */
  function Resolve(rows: Entries, ids: seq<int>): (all: seq<Entry>)
    ensures |all| <= |ids|
    ensures |all| == |ids| <==> Known(rows, ids)
    ensures Known(rows, ids) ==> forall i :: 0 <= i < |ids| ==> all[i] == rows[ids[i]]
  {
    if ids == [] then []
    else
      assert forall i :: 0 <= i < |ids| - 1 ==> ids[1..][i] == ids[i + 1];
      assert Known(rows, ids) <==> ids[0] in rows && Known(rows, ids[1..]);
      if ids[0] in rows then [rows[ids[0]]] + Resolve(rows, ids[1..]) else Resolve(rows, ids[1..])
  }

  /** Rows that stay put resolve to the same list for ever. */
  lemma ResolveStable(earlier: Entries, later: Entries, ids: seq<int>)
    requires Extends(earlier, later) && Known(earlier, ids)
    ensures Known(later, ids) && Resolve(later, ids) == Resolve(earlier, ids)
    ensures forall i :: 0 <= i < |ids| ==> ids[i] in earlier && later[ids[i]] == earlier[ids[i]]
  {
    forall i | 0 <= i < |ids| ensures ids[i] in later && later[ids[i]] == earlier[ids[i]] {
      var k := ids[i];
      assert k in earlier;
    }
  }

  /** One `ORDER BY` step: `id` goes before the first listed entry it precedes. */
  function Place(rows: Entries, id: int, ids: seq<int>): (r: seq<int>)
    requires id in rows && Known(rows, ids)
    ensures forall k :: k in r <==> k == id || k in ids
    ensures Known(rows, r) && |r| == |ids| + 1
  {
    if ids == [] then [id]
    else if Before(rows[id], rows[ids[0]]) then [id] + ids
    else
      var rest := Place(rows, id, ids[1..]);
      assert ids == [ids[0]] + ids[1..];
      [ids[0]] + rest
  }

  function OrderedBelow(rows: Entries, bound: nat): (ids: seq<int>)
    ensures forall k :: k in ids <==> k in rows && 0 <= k < bound
    ensures Known(rows, ids)
  {
    if bound == 0 then []
    else
      var below := OrderedBelow(rows, bound - 1);
      if bound - 1 in rows then Place(rows, bound - 1, below) else below
  }

  /** `SELECT id FROM diary_entry ORDER BY entry_date ASC, id ASC`. */
  function OrderedIds(entries: Table<Entry>): (ids: seq<int>)
    requires entries.Valid()
    ensures forall k :: k in ids <==> k in entries.rows
  {
    OrderedBelow(entries.rows, entries.next)
  }

  ghost predicate SortedIds(rows: Entries, ids: seq<int>) {
    && Known(rows, ids)
    && forall i, j :: 0 <= i < j < |ids| ==> Before(rows[ids[i]], rows[ids[j]])
  }

  lemma {:induction false} PlaceSorted(rows: Entries, id: int, ids: seq<int>)
    requires KeyedById(rows) && id in rows && SortedIds(rows, ids) && id !in ids
    ensures SortedIds(rows, Place(rows, id, ids))
  {
    if ids != [] {
      var e, first := rows[id], rows[ids[0]];
      BeforeTotal(e, first);
      if Before(e, first) {
        forall j | 0 < j < |ids| ensures Before(e, rows[ids[j]]) {
          BeforeTransitive(e, first, rows[ids[j]]);
        }
      } else {
        var rest := Place(rows, id, ids[1..]);
        PlaceSorted(rows, id, ids[1..]);
        assert first.id == ids[0] && ids[0] in ids;
        forall j | 0 <= j < |rest| ensures Before(first, rows[rest[j]]) {
          assert rest[j] in rest;
          if rest[j] != id {
            var k :| 0 <= k < |ids[1..]| && ids[1..][k] == rest[j];
            assert ids[k + 1] == rest[j];
          }
        }
      }
    }
  }

  lemma {:induction false} OrderedBelowSorted(rows: Entries, bound: nat)
    requires KeyedById(rows)
    ensures SortedIds(rows, OrderedBelow(rows, bound))
  {
    if bound > 0 {
      OrderedBelowSorted(rows, bound - 1);
      if bound - 1 in rows {
        PlaceSorted(rows, bound - 1, OrderedBelow(rows, bound - 1));
      }
    }
  }

  /** The query returns every entry exactly once, strictly increasing under (entry_date, id),
      and that determines the list: it is the only strictly increasing one of those entries. */
  lemma OrderedIdsCanonical(entries: Table<Entry>, other: seq<int>)
    requires entries.Valid() && KeyedById(entries.rows)
    ensures SortedIds(entries.rows, OrderedIds(entries))
    ensures SortedIds(entries.rows, other) && (forall k :: k in entries.rows ==> k in other)
            ==> other == OrderedIds(entries)
  {
    OrderedBelowSorted(entries.rows, entries.next);
    if SortedIds(entries.rows, other) && (forall k :: k in entries.rows ==> k in other) {
      SortedUnique(entries.rows, other, OrderedIds(entries));
    }
  }

  lemma {:induction false} SortedUnique(rows: Entries, a: seq<int>, b: seq<int>)
    requires SortedIds(rows, a) && SortedIds(rows, b)
    requires forall k :: k in a <==> k in b
    ensures a == b
  {
    SameMembersEmpty(a, b);
    if a != [] {
      var k, l := a[0], b[0];
      assert k in a && l in b;
      SortedHead(rows, a, b);
      var x := a[0];
      forall k ensures k in a[1..] <==> k in b[1..] {
        SortedTail(rows, a, k);
        SortedTail(rows, b, k);
      }
      SortedUnique(rows, a[1..], b[1..]);
      assert a == [x] + a[1..] && b == [x] + b[1..];
    }
  }

  lemma SameMembersEmpty(a: seq<int>, b: seq<int>)
    requires forall k :: k in a <==> k in b
    ensures a == [] <==> b == []
  {
    if a != [] {
      var k := a[0];
      assert k in a;
    }
    if b != [] {
      var k := b[0];
      assert k in b;
    }
  }

  lemma SortedHead(rows: Entries, a: seq<int>, b: seq<int>)
    requires SortedIds(rows, a) && SortedIds(rows, b) && a != [] && b != []
    requires a[0] in b && b[0] in a
    ensures a[0] == b[0]
  {
    if a[0] != b[0] {
      var i :| 0 <= i < |b| && b[i] == a[0];
      var j :| 0 <= j < |a| && a[j] == b[0];
      BeforeTotal(rows[a[0]], rows[b[0]]);
    }
  }

  lemma SortedTail(rows: Entries, a: seq<int>, k: int)
    requires SortedIds(rows, a) && a != []
    ensures k in a[1..] <==> k in a && k != a[0]
  {
    assert a == [a[0]] + a[1..];
    if k in a[1..] {
      var i :| 0 <= i < |a[1..]| && a[1..][i] == k;
      assert a[i + 1] == k;
      BeforeTotal(rows[a[0]], rows[a[i + 1]]);
    }
  }

  // ------------------------------------------------------------------ snapshots

  /** `sub` is what is left of `whole` after deleting some elements. */
  predicate Subsequence(sub: seq<int>, whole: seq<int>) {
    if sub == [] then true
    else if whole == [] then false
    else if sub[0] == whole[0] then Subsequence(sub[1..], whole[1..])
    else Subsequence(sub, whole[1..])
  }

  lemma {:induction false} SortedSubset(rows: Entries, sub: seq<int>, whole: seq<int>)
    requires SortedIds(rows, sub) && SortedIds(rows, whole)
    requires forall k :: k in sub ==> k in whole
    ensures Subsequence(sub, whole)
  {
    if sub != [] {
      var first := sub[0];
      assert first in sub;
      if sub[0] == whole[0] {
        forall k | k in sub[1..] ensures k in whole[1..] {
          SortedTail(rows, sub, k);
          SortedTail(rows, whole, k);
        }
        SortedSubset(rows, sub[1..], whole[1..]);
      } else {
        assert whole[0] !in sub by {
          if whole[0] in sub {
            var k := whole[0];
            assert k in whole;
            SortedHead(rows, sub, whole);
          }
        }
        forall k | k in sub ensures k in whole[1..] {
          SortedTail(rows, whole, k);
        }
        SortedSubset(rows, sub, whole[1..]);
      }
    }
  }

  lemma SortedIdsStable(earlier: Entries, later: Entries, ids: seq<int>)
    requires Extends(earlier, later) && SortedIds(earlier, ids)
    ensures SortedIds(later, ids)
  {
    ResolveStable(earlier, later, ids);
  }

  /** A stored snapshot of an earlier archive is a strictly increasing subsequence of every later
      one: entries written since can only fall between its members, never reorder them. */
  lemma SnapshotIsSubsequence(earlier: Table<Entry>, later: Table<Entry>)
    requires earlier.Valid() && later.Valid()
    requires KeyedById(earlier.rows) && KeyedById(later.rows) && Extends(earlier.rows, later.rows)
    ensures SortedIds(later.rows, OrderedIds(earlier))
    ensures Subsequence(OrderedIds(earlier), OrderedIds(later))
  {
    OrderedIdsCanonical(earlier, []);
    OrderedIdsCanonical(later, []);
    SortedIdsStable(earlier.rows, later.rows, OrderedIds(earlier));
    SortedSubset(later.rows, OrderedIds(earlier), OrderedIds(later));
  }

  /** The order is by date, and among entries of one date by id. */
  lemma OrderedByDateThenId(entries: Table<Entry>, i: nat, j: nat)
    requires entries.Valid() && KeyedById(entries.rows) && i < j < |OrderedIds(entries)|
    ensures var a, b := OrderedIds(entries)[i], OrderedIds(entries)[j];
      && a in entries.rows && b in entries.rows
      && (TextLess(entries.rows[a].date, entries.rows[b].date) || (entries.rows[a].date == entries.rows[b].date && a < b))
  {
    hide OrderedIds, TextLess;
    OrderedIdsCanonical(entries, []);
    var all := Resolve(entries.rows, OrderedIds(entries));
    assert Before(all[i], all[j]);
  }

  // ------------------------------------------------------------------ request content

  /** The two fixed instruction texts appended to the persona. */
  datatype Instructions = Instructions(perEntry: string, report: string)

  datatype ContentError = NotCanonical | NotAMember

  datatype Content = Content(system: string, user: string)

  /** `chronology != sorted(chronology)` on the (entry_date, id) pairs. */
  predicate InCanonicalOrder(all: seq<Entry>) {
    forall i :: 0 <= i < |all| - 1 ==> !Before(all[i + 1], all[i])
  }

  function IndexOf(id: int, all: seq<Entry>): (i: nat)
    ensures i <= |all|
    ensures i < |all| ==> all[i].id == id
    ensures forall j :: 0 <= j < i ==> all[j].id != id
  {
    if all == [] then 0 else if all[0].id == id then 0 else 1 + IndexOf(id, all[1..])
  }

  /** `_entries_through_target`: the target and everything before it. */
  function ThroughTarget(id: int, all: seq<Entry>): Result<seq<Entry>, ContentError> {
    if !InCanonicalOrder(all) then Failure(NotCanonical)
    else if IndexOf(id, all) == |all| then Failure(NotAMember)
    else Success(all[..IndexOf(id, all) + 1])
  }

  function Day(date: string): (day: string)
    ensures day <= date && |day| == if |date| < 10 then |date| else 10
  {
    if |date| <= 10 then date else date[..10]
  }

  const SEPARATOR := "\n\n---\n\n"

  const AS_OF_HEADING :=
    "Journal entries available as of the target entry, in canonical chronological order. " +
    "Later entries are intentionally excluded:\n\n"

  const REPORT_HEADING := "全部日记（按时间顺序）：\n\n"

  function CorpusFrom(all: seq<Entry>, first: nat): string {
    if all == [] then ""
    else
      var part := "#" + TargetKeys.Decimal(first) + " [" + Day(all[0].date) + "] " + all[0].title + "\n" + all[0].text;
      if |all| == 1 then part else part + SEPARATOR + CorpusFrom(all[1..], first + 1)
  }

  function Corpus(all: seq<Entry>): string {
    CorpusFrom(all, 1)
  }

  function CommentaryContent(entry: Entry, all: seq<Entry>, persona: string, tasks: Instructions): Result<Content, ContentError> {
    match ThroughTarget(entry.id, all)
    case Failure(e) => Failure(e)
    case Success(history) => Success(AsOfContent(entry, history, persona, tasks))
  }

  function AsOfContent(entry: Entry, history: seq<Entry>, persona: string, tasks: Instructions): Content {
    Content(
      persona + "\n\n" + tasks.perEntry,
      AS_OF_HEADING + Corpus(history) + SEPARATOR +
      "Write the Entry Reflection for entry " + TargetKeys.Decimal(|history|) + ": " + entry.title + ". " +
      "Respond in the language used by the target entry.")
  }

  function ReportContent(all: seq<Entry>, persona: string, tasks: Instructions): Content {
    Content(persona + "\n\n" + tasks.report, REPORT_HEADING + Corpus(all))
  }

  lemma ChronologicalIsCanonical(all: seq<Entry>)
    requires Chronological(all)
    ensures InCanonicalOrder(all)
  {
    forall i | 0 <= i < |all| - 1 ensures !Before(all[i + 1], all[i]) {
      BeforeTotal(all[i], all[i + 1]);
    }
  }

  /** As-of non-interference: two archives in canonical order that agree through the target give
      the same Entry Reflection request, whatever either holds after it. */
  lemma AsOfNonInterference(entry: Entry, shared: seq<Entry>, laterA: seq<Entry>, laterB: seq<Entry>,
                            persona: string, tasks: Instructions)
    requires InCanonicalOrder(shared + laterA) && InCanonicalOrder(shared + laterB)
    requires exists e :: e in shared && e.id == entry.id
    ensures CommentaryContent(entry, shared + laterA, persona, tasks)
         == CommentaryContent(entry, shared + laterB, persona, tasks)
    ensures CommentaryContent(entry, shared + laterA, persona, tasks).Success?
  {
    hide ThroughTarget, AsOfContent, IndexOf, InCanonicalOrder;
    var e :| e in shared && e.id == entry.id;
    var i := IndexOf(entry.id, shared);
    assert i < |shared| by {
      var k :| 0 <= k < |shared| && shared[k] == e;
    }
    ThroughPrefix(entry.id, shared, laterA);
    ThroughPrefix(entry.id, shared, laterB);
  }

  lemma ThroughPrefix(id: int, shared: seq<Entry>, later: seq<Entry>)
    requires InCanonicalOrder(shared + later) && IndexOf(id, shared) < |shared|
    ensures ThroughTarget(id, shared + later) == Success(shared[..IndexOf(id, shared) + 1])
  {
    hide InCanonicalOrder;
    var i := IndexOf(id, shared);
    IndexOfPrefix(id, shared, later);
    assert (shared + later)[..i + 1] == shared[..i + 1];
  }

  lemma AsOfPrefix(entry: Entry, a: seq<Entry>, b: seq<Entry>, at: nat, persona: string, tasks: Instructions)
    requires InCanonicalOrder(a) && InCanonicalOrder(b)
    requires at < |a| && at < |b| && a[at] == entry && a[..at + 1] == b[..at + 1]
    ensures CommentaryContent(entry, a, persona, tasks) == CommentaryContent(entry, b, persona, tasks)
  {
    var shared := a[..at + 1];
    assert shared[at] in shared;
    assert a == shared + a[at + 1..] && b == shared + b[at + 1..];
    AsOfNonInterference(entry, shared, a[at + 1..], b[at + 1..], persona, tasks);
  }

  lemma IndexOfPrefix(id: int, shared: seq<Entry>, later: seq<Entry>)
    requires IndexOf(id, shared) < |shared|
    ensures IndexOf(id, shared + later) == IndexOf(id, shared)
  {
    var i := IndexOf(id, shared);
    assert (shared + later)[i] == shared[i];
    assert forall k :: 0 <= k < i ==> (shared + later)[k] == shared[k];
  }

  function LiveArchive(entries: Table<Entry>): seq<Entry>
    requires entries.Valid()
  {
    Resolve(entries.rows, OrderedIds(entries))
  }

  lemma OrderedIdsInsert(entries: Table<Entry>, added: Entry)
    requires entries.Valid() && KeyedById(entries.rows) && added.id == entries.next
    ensures var after := entries.Insert(added);
      && after.Valid() && KeyedById(after.rows) && Extends(entries.rows, after.rows)
      && Known(after.rows, OrderedIds(entries))
      && OrderedIds(after) == Place(after.rows, added.id, OrderedIds(entries))
  {
    OrderedBelowFrame(entries.rows, entries.Insert(added).rows, entries.next);
  }

  /** A later entry leaves the order up to `target` as it was. */
  lemma LaterEntryOrder(entries: Table<Entry>, added: Entry, target: int) returns (at: nat)
    requires entries.Valid() && KeyedById(entries.rows) && target in entries.rows
    requires added.id == entries.next && Before(entries.rows[target], added)
    ensures var oldIds, newIds := OrderedIds(entries), OrderedIds(entries.Insert(added));
      && at < |oldIds| && at < |newIds| && oldIds[at] == target
      && newIds[..at + 1] == oldIds[..at + 1]
  {
    var rows := entries.Insert(added).rows;
    var ids := OrderedIds(entries);
    OrderedIdsInsert(entries, added);
    OrderedIdsCanonical(entries, []);
    SortedIdsStable(entries.rows, rows, ids);
    assert target in ids;
    at :| 0 <= at < |ids| && ids[at] == target;
    PlaceKeepsPrefix(rows, added.id, ids, at);
  }

  lemma LiveArchiveCanonical(entries: Table<Entry>)
    requires entries.Valid() && KeyedById(entries.rows)
    ensures InCanonicalOrder(LiveArchive(entries))
  {
    OrderedIdsCanonical(entries, []);
    ChronologicalIsCanonical(LiveArchive(entries));
  }

  lemma ResolvePrefix(earlier: Entries, later: Entries, ids: seq<int>, laterIds: seq<int>, n: nat)
    requires Extends(earlier, later) && Known(earlier, ids) && Known(later, laterIds)
    requires n <= |ids| && n <= |laterIds| && ids[..n] == laterIds[..n]
    ensures |Resolve(earlier, ids)| == |ids| && |Resolve(later, laterIds)| == |laterIds|
    ensures Resolve(later, laterIds)[..n] == Resolve(earlier, ids)[..n]
  {
    var a, b := Resolve(earlier, ids), Resolve(later, laterIds);
    forall i | 0 <= i < n ensures a[i] == b[i] {
      assert ids[i] == ids[..n][i] == laterIds[..n][i] == laterIds[i];
      var k := ids[i];
      assert k in earlier;
    }
  }

  /** Where `target` stands in the live archive, and that a later entry leaves everything up to
      that place as it was. */
  lemma LaterEntryFallsBehind(entries: Table<Entry>, added: Entry, target: int) returns (at: nat)
    requires entries.Valid() && KeyedById(entries.rows) && target in entries.rows
    requires added.id == entries.next && Before(entries.rows[target], added)
    ensures var before, after := LiveArchive(entries), LiveArchive(entries.Insert(added));
      && at < |before| && at < |after| && before[at] == entries.rows[target]
      && before[..at + 1] == after[..at + 1]
  {
    at := LaterEntryOrder(entries, added, target);
    var grown := entries.Insert(added);
    OrderedIdsInsert(entries, added);
    ResolvePrefix(entries.rows, grown.rows, OrderedIds(entries), OrderedIds(grown), at + 1);
  }

  /** Writing an entry that falls after the target leaves the target's request as it was. */
  lemma LaterEntryIsInvisible(entries: Table<Entry>, added: Entry, target: int, persona: string, tasks: Instructions)
    requires entries.Valid() && KeyedById(entries.rows) && target in entries.rows
    requires added.id == entries.next && Before(entries.rows[target], added)
    ensures CommentaryContent(entries.rows[target], LiveArchive(entries.Insert(added)), persona, tasks)
         == CommentaryContent(entries.rows[target], LiveArchive(entries), persona, tasks)
  {
    var at := LaterEntryFallsBehind(entries, added, target);
    var before, after := LiveArchive(entries), LiveArchive(entries.Insert(added));
    OrderedIdsInsert(entries, added);
    LiveArchiveCanonical(entries);
    LiveArchiveCanonical(entries.Insert(added));
    AsOfPrefix(entries.rows[target], before, after, at, persona, tasks);
  }

  lemma {:induction false} OrderedBelowFrame(earlier: Entries, later: Entries, bound: nat)
    requires forall k :: 0 <= k < bound ==> (k in earlier <==> k in later) && (k in earlier ==> earlier[k] == later[k])
    ensures OrderedBelow(earlier, bound) == OrderedBelow(later, bound)
  {
    if bound > 0 {
      OrderedBelowFrame(earlier, later, bound - 1);
      if bound - 1 in earlier {
        var below := OrderedBelow(earlier, bound - 1);
        assert forall i :: 0 <= i < |below| ==> below[i] in below;
        PlaceFrame(earlier, later, bound - 1, OrderedBelow(earlier, bound - 1));
      }
    }
  }

  lemma {:induction false} PlaceFrame(earlier: Entries, later: Entries, id: int, ids: seq<int>)
    requires id in earlier && id in later && earlier[id] == later[id]
    requires Known(earlier, ids) && Known(later, ids)
    requires forall i :: 0 <= i < |ids| ==> earlier[ids[i]] == later[ids[i]]
    ensures Place(earlier, id, ids) == Place(later, id, ids)
  {
    if ids != [] {
      PlaceFrame(earlier, later, id, ids[1..]);
    }
  }

  lemma {:induction false} PlaceKeepsPrefix(rows: Entries, id: int, ids: seq<int>, at: nat)
    requires id in rows && SortedIds(rows, ids) && at < |ids|
    requires Before(rows[ids[at]], rows[id])
    ensures Place(rows, id, ids)[..at + 1] == ids[..at + 1]
  {
    if at > 0 {
      assert Before(rows[ids[0]], rows[id]) by {
        BeforeTransitive(rows[ids[0]], rows[ids[at]], rows[id]);
      }
    }
    BeforeTotal(rows[ids[0]], rows[id]);
    assert Place(rows, id, ids) == [ids[0]] + Place(rows, id, ids[1..]);
    if at > 0 {
      PlaceKeepsPrefix(rows, id, ids[1..], at - 1);
      assert ids[..at + 1] == [ids[0]] + ids[1..][..at];
    }
  }
}
