/** What a request contains: every entry of its list, whole and in order, and nothing else of the
    archive. */
module RequestContent {
  import opened Tables
  import opened Archive
  import TargetKeys

  // ------------------------------------------------------------------ the corpus

  /** An entry as a request presents it: its number in the list, its day, its title, its own text. */
  function Presented(e: Entry, number: nat): string {
    "#" + TargetKeys.Decimal(number) + " [" + Day(e.date) + "] " + e.title + "\n" + e.text
  }

  lemma CorpusUnfolds(all: seq<Entry>, first: nat)
    requires all != []
    ensures |all| == 1 ==> CorpusFrom(all, first) == Presented(all[0], first)
    ensures |all| > 1 ==> CorpusFrom(all, first) == Presented(all[0], first) + (SEPARATOR + CorpusFrom(all[1..], first + 1))
  {
    hide TargetKeys.Decimal, Day;
    if |all| > 1 {
      assert CorpusFrom(all, first) == Presented(all[0], first) + SEPARATOR + CorpusFrom(all[1..], first + 1);
      Regroup(Presented(all[0], first), SEPARATOR, CorpusFrom(all[1..], first + 1));
    }
  }

  lemma Regroup(a: string, b: string, c: string)
    ensures (a + b) + c == a + (b + c)
  {
  }

  lemma {:induction false} CorpusSplits(all: seq<Entry>, first: nat, k: nat)
    requires 0 < k < |all|
    ensures CorpusFrom(all, first) == CorpusFrom(all[..k], first) + (SEPARATOR + CorpusFrom(all[k..], first + k))
  {
    hide CorpusFrom, Presented;
    CorpusUnfolds(all, first);
    CorpusUnfolds(all[..k], first);
    if k > 1 {
      CorpusSplits(all[1..], first + 1, k - 1);
      assert all[1..][..k - 1] == all[..k][1..] && all[1..][k - 1..] == all[k..];
      var part, head, tail := Presented(all[0], first), CorpusFrom(all[..k][1..], first + 1), SEPARATOR + CorpusFrom(all[k..], first + k);
      Regroup(SEPARATOR, head, tail);
      Regroup(part, SEPARATOR + head, tail);
    }
  }

  /** Entry k stands in the corpus under its number, with its day, its title and its own text.
      Before it stand exactly the entries before it, and after it the others, each set off by the
      separator: every entry once, in list order. */
  lemma CorpusHoldsEveryEntry(all: seq<Entry>, k: nat) returns (before: string, after: string)
    requires k < |all|
    ensures Corpus(all) == before + Presented(all[k], k + 1) + after
    ensures before == if k == 0 then "" else Corpus(all[..k]) + SEPARATOR
    ensures k == |all| - 1 ==> after == ""
    ensures k < |all| - 1 ==> exists rest :: after == SEPARATOR + rest
  {
    hide CorpusFrom, Presented;
    var from, part := all[k..], Presented(all[k], k + 1);
    CorpusUnfolds(from, k + 1);
    after := if k < |all| - 1 then SEPARATOR + CorpusFrom(from[1..], k + 2) else "";
    assert CorpusFrom(from, k + 1) == part + after;
    before := if k == 0 then "" else Corpus(all[..k]) + SEPARATOR;
    if k == 0 {
      assert from == all;
      assert "" + part == part;
    } else {
      CorpusSplits(all, 1, k);
      Regroup(Corpus(all[..k]), SEPARATOR, part + after);
      Regroup(before, part, after);
    }
  }

  // ------------------------------------------------------------------ an entry's reflection

  /** The instruction at the end of a reflection request. */
  function Instruction(number: nat, title: string): string {
    "Write the Entry Reflection for entry " + TargetKeys.Decimal(number) + ": " + title + ". "
      + "Respond in the language used by the target entry."
  }

  lemma UserText(entry: Entry, history: seq<Entry>, persona: string, tasks: Instructions)
    ensures AsOfContent(entry, history, persona, tasks) ==
      Content(persona + "\n\n" + tasks.perEntry,
              AS_OF_HEADING + (Corpus(history) + (SEPARATOR + Instruction(|history|, entry.title))))
  {
    hide Corpus;
    var a, b, c := "Write the Entry Reflection for entry ", TargetKeys.Decimal(|history|), ": ";
    Grouped(AS_OF_HEADING, Corpus(history), SEPARATOR, a, b, c, entry.title, ". ", "Respond in the language used by the target entry.");
  }

  lemma Grouped(h: string, c: string, s: string, a: string, n: string, b: string, t: string, d: string, e: string)
    ensures h + c + s + a + n + b + t + d + e == h + (c + (s + (a + n + b + t + d + e)))
  {
    Regroup(h + c, s, a);
    assert h + c + s + a + n + b + t + d + e == (h + c + s) + (a + n + b + t + d + e);
    Regroup(h + c, s, a + n + b + t + d + e);
    Regroup(h, c, s + (a + n + b + t + d + e));
  }

  /** A reflection request is refused exactly if the list is out of order or the target is not in it.
      Otherwise its system text is the persona, then the task; its user text is a heading, the corpus
      of exactly the entries through the target, and the instruction with the target's number and
      title. */
  lemma CommentaryContentIs(entry: Entry, all: seq<Entry>, persona: string, tasks: Instructions) returns (at: nat)
    ensures var c := CommentaryContent(entry, all, persona, tasks);
      var ordered := forall i :: 0 <= i < |all| - 1 ==> !Before(all[i + 1], all[i]);
      && (c == Failure(NotCanonical) <==> !ordered)
      && (c == Failure(NotAMember) <==> ordered && forall e :: e in all ==> e.id != entry.id)
      && (c.Success? <==> ordered && exists e :: e in all && e.id == entry.id)
      && (c.Success? ==>
           && at < |all| && all[at].id == entry.id && (forall j :: 0 <= j < at ==> all[j].id != entry.id)
           && c.value.system == persona + "\n\n" + tasks.perEntry
           && c.value.user == AS_OF_HEADING + (Corpus(all[..at + 1]) + (SEPARATOR + Instruction(at + 1, entry.title))))
  {
    hide Corpus, Instruction, AsOfContent, Before;
    at := IndexOf(entry.id, all);
    if at < |all| {
      assert all[at] in all && all[at].id == entry.id;
      UserText(entry, all[..at + 1], persona, tasks);
    } else {
      forall e | e in all ensures e.id != entry.id {
        var j :| 0 <= j < |all| && all[j] == e;
      }
    }
  }

  /** Every entry through the target stands in the user text of the target's reflection request, set
      off on both sides; the target itself comes last, directly before the instruction. */
  lemma CommentaryHoldsEveryEntry(entry: Entry, all: seq<Entry>, persona: string, tasks: Instructions, at: nat, k: nat)
    returns (before: string, after: string)
    requires InCanonicalOrder(all) && at < |all| && k <= at
    requires all[at].id == entry.id && forall j :: 0 <= j < at ==> all[j].id != entry.id
    ensures CommentaryContent(entry, all, persona, tasks).Success?
    ensures CommentaryContent(entry, all, persona, tasks).value.user == before + Presented(all[k], k + 1) + after
    ensures before == AS_OF_HEADING + if k == 0 then "" else Corpus(all[..k]) + SEPARATOR
    ensures k == at ==> after == SEPARATOR + Instruction(at + 1, entry.title)
    ensures exists rest :: after == SEPARATOR + rest
  {
    hide Corpus, Presented, Instruction, AsOfContent, InCanonicalOrder;
    assert IndexOf(entry.id, all) == at by { assert all[at] in all; }
    var history := all[..at + 1];
    var first, last := CorpusHoldsEveryEntry(history, k);
    assert history[..k] == all[..k] && history[k] == all[k];
    UserText(entry, history, persona, tasks);
    var part, end := Presented(all[k], k + 1), SEPARATOR + Instruction(at + 1, entry.title);
    before, after := AS_OF_HEADING + first, last + end;
    Framed(AS_OF_HEADING, first, part, last, end);
    if k == at {
      assert "" + end == end;
      assert after == SEPARATOR + Instruction(at + 1, entry.title);
    } else {
      var rest :| last == SEPARATOR + rest;
      Regroup(SEPARATOR, rest, end);
      assert after == SEPARATOR + (rest + end);
    }
  }

  lemma Framed(h: string, b: string, p: string, a: string, e: string)
    ensures h + ((b + p + a) + e) == (h + b) + p + (a + e)
  {
    Regroup(b + p, a, e);
    Regroup(h, b + p, a + e);
    Regroup(h, b, p);
  }

  // ------------------------------------------------------------------ the report

  /** A report request carries the persona, then the task, and every entry of the whole list. */
  lemma ReportHoldsEveryEntry(all: seq<Entry>, persona: string, tasks: Instructions, k: nat) returns (before: string, after: string)
    requires k < |all|
    ensures ReportContent(all, persona, tasks).system == persona + "\n\n" + tasks.report
    ensures ReportContent(all, persona, tasks).user == before + Presented(all[k], k + 1) + after
    ensures before == REPORT_HEADING + if k == 0 then "" else Corpus(all[..k]) + SEPARATOR
    ensures if k == |all| - 1 then after == "" else exists rest :: after == SEPARATOR + rest
  {
    hide Corpus, Presented;
    var first, last := CorpusHoldsEveryEntry(all, k);
    before, after := REPORT_HEADING + first, last;
    Regroup(REPORT_HEADING, first + Presented(all[k], k + 1), last);
    Regroup(REPORT_HEADING, first, Presented(all[k], k + 1));
  }

  lemma EmptyReport(persona: string, tasks: Instructions)
    ensures ReportContent([], persona, tasks) == Content(persona + "\n\n" + tasks.report, REPORT_HEADING)
  {
    assert REPORT_HEADING + "" == REPORT_HEADING;
  }
}
