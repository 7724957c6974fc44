/** Every step of the archive, the maintenance flag and the routes preserves the invariant.

    Each proof hides the parts of the invariant its step does not touch. */
module SafetySteps {
  import opened Tables
  import opened TargetKeys
  import opened Archive
  import opened Store
  import opened GenerationSafety
  import opened SafetyInvariant

  // ------------------------------------------------------------------ archive and prompts

  lemma ItemsStayGood(env: Env, earlier: Entries, later: Entries, prompts: map<int, Prompt>, jobs: map<int, Job>, items: map<int, Item>)
    requires Extends(earlier, later)
    requires JobsOk(earlier, prompts, jobs) && ItemsOk(env, earlier, prompts, jobs, items)
    ensures JobsOk(later, prompts, jobs) && ItemsOk(env, later, prompts, jobs, items)
  {
    forall j | j in jobs && jobs[j].snapshotCount.Some? ensures SortedIds(later, jobs[j].snapshot) {
      SortedIdsStable(earlier, later, jobs[j].snapshot);
    }
    forall i | i in items && jobs[items[i].jobId].snapshotCount.Some?
      ensures ItemGood(env, later, prompts[jobs[items[i].jobId].promptId], jobs[items[i].jobId].snapshot, items[i])
    {
      ResolveStable(earlier, later, jobs[items[i].jobId].snapshot);
    }
  }

  lemma PrepsStayOk(env: Env, earlier: Entries, later: Entries, prompts: map<int, Prompt>, laterPrompts: map<int, Prompt>,
                    preps: map<int, Prep>)
    requires PrepsOk(env, earlier, prompts, preps)
    requires Extends(earlier, later) && Extends(prompts, laterPrompts)
    ensures PrepsOk(env, later, laterPrompts, preps)
  {
    forall p | p in preps ensures PrepOk(env, later, laterPrompts, preps[p]) {
      ResolveStable(earlier, later, preps[p].ids);
    }
  }

  lemma InsertExtends<T(!new)>(table: Table<T>, row: T)
    requires table.Valid()
    ensures table.Insert(row).Valid() && Extends(table.rows, table.Insert(row).rows)
  {
  }

  lemma AddEntryStep(env: Env, s: State, date: string, title: string, text: string)
    requires Inv(env, s)
    ensures Inv(env, s.(db := WriteEntry(s.db, date, title, text)))
  {
    hide PromptsValid, ResultsValid, JobsOk, OneRunning, ItemsOk, BaselinesOk, TargetsDistinct, HistoryOrdered, HistoryOk, ChatOk;
    hide LeasesOk, TasksOk, WorkersOk, PrepsOk, BusyOk, LeaseTable.Valid, ItemGood, ActsOk;
    var entries := WriteEntry(s.db, date, title, text).entries;
    InsertExtends(s.db.entries, Entry(s.db.entries.next, date, title, text));
    ItemsStayGood(env, s.db.entries.rows, entries.rows, s.db.prompts.rows, s.db.jobs.rows, s.db.items.rows);
    if s.live.Up? {
      PrepsStayOk(env, s.db.entries.rows, entries.rows, s.db.prompts.rows, s.db.prompts.rows, s.live.preps);
      ActsStayOk(s.db.entries.rows, entries.rows, s.db.prompts.rows, s.db.prompts.rows, s.db.sessions.rows, s.db.logs, s.live.acts, s.nextAct);
    }
  }

  lemma ActsStayOk(earlier: Entries, later: Entries, prompts: map<int, Prompt>, laterPrompts: map<int, Prompt>,
                   sessions: map<int, string>, logs: map<Key, seq<Message>>, acts: map<int, Activity>, nextAct: int)
    requires ActsOk(earlier, prompts, sessions, logs, acts, nextAct)
    requires Extends(earlier, later) && Extends(prompts, laterPrompts)
    ensures ActsOk(later, laterPrompts, sessions, logs, acts, nextAct)
  {
    forall a | a in acts ensures ActOk(later, laterPrompts, sessions, logs, a, acts[a]) {
      assert ActOk(earlier, prompts, sessions, logs, a, acts[a]);
      var k := acts[a].key;
      assert k.EntryThreadKey? && k.entryId in earlier ==> k.entryId in later;
      if acts[a].kind.DirectReport? && acts[a].kind.promptId.Some? {
        var p := acts[a].kind.promptId.value;
        assert p in prompts;
      }
    }
  }

  lemma PromptsStayGood(env: Env, entries: Entries, prompts: map<int, Prompt>, later: map<int, Prompt>, jobs: map<int, Job>, items: map<int, Item>)
    requires Extends(prompts, later)
    requires JobsOk(entries, prompts, jobs) && ItemsOk(env, entries, prompts, jobs, items)
    ensures JobsOk(entries, later, jobs) && ItemsOk(env, entries, later, jobs, items)
  {
    hide ItemGood, SortedIds;
  }

  lemma ApplyPromptStep(env: Env, s: State, body: string, model: string)
    requires Inv(env, s) && s.live.Up?
    ensures Inv(env, s.(db := ActivatePrompt(s.db, body, model)))
  {
    hide EntriesValid, ResultsValid, JobsOk, OneRunning, ItemsOk, BaselinesOk, TargetsDistinct, HistoryOrdered, HistoryOk, ChatOk;
    hide LeasesOk, TasksOk, WorkersOk, PrepsOk, BusyOk, LeaseTable.Valid, ItemGood, ActsOk;
    var prompts := ActivatePrompt(s.db, body, model).prompts;
    InsertExtends(s.db.prompts, Prompt(body, model));
    PromptsStayGood(env, s.db.entries.rows, s.db.prompts.rows, prompts.rows, s.db.jobs.rows, s.db.items.rows);
    PrepsStayOk(env, s.db.entries.rows, s.db.entries.rows, s.db.prompts.rows, prompts.rows, s.live.preps);
    ActsStayOk(s.db.entries.rows, s.db.entries.rows, s.db.prompts.rows, prompts.rows, s.db.sessions.rows, s.db.logs, s.live.acts, s.nextAct);
  }

  lemma SetLockedStep(env: Env, s: State, locked: bool)
    requires Inv(env, s)
    ensures Inv(env, s.(db := SetLocked(s.db, locked)))
  {
    hide EntriesValid, PromptsValid, ResultsValid, JobsOk, OneRunning, ItemsOk, BaselinesOk, TargetsDistinct, HistoryOrdered, HistoryOk, ChatOk;
    hide LeasesOk, TasksOk, WorkersOk, ActsOk, PrepsOk, BusyOk, Table.Valid, LeaseTable.Valid;
  }

  // ------------------------------------------------------------------ acquiring and releasing

  /** A step that changes nothing but leases and activities, consistently. */
  lemma LeaseOnlyStep(env: Env, s: State, after: State)
    requires Inv(env, s) && s.live.Up? && after.live.Up?
    requires after == s.(db := s.db.(leases := after.db.leases), live := s.live.(acts := after.live.acts), nextAct := after.nextAct)
    requires s.nextAct <= after.nextAct && after.db.leases.Valid()
    requires LeasesOk(after.db.leases.rows, s.db.items.rows, after.live.acts, s.live.tasks)
    requires ActsOk(s.db.entries.rows, s.db.prompts.rows, s.db.sessions.rows, s.db.logs, after.live.acts, after.nextAct)
    ensures Inv(env, after)
  {
    hide EntriesValid, PromptsValid, ResultsValid, JobsOk, OneRunning, ItemsOk, BaselinesOk, TargetsDistinct, HistoryOrdered, HistoryOk;
    hide LeasesOk, TasksOk, WorkersOk, ActsOk, PrepsOk, BusyOk, Table.Valid, LeaseTable.Valid, TurnsOk;
  }

  lemma AcquireKeepsLeases(leases: LeaseTable, items: map<int, Item>, acts: map<int, Activity>, tasks: map<int, TaskPc>,
                           a: int, kind: LeaseKind, act: Activity)
    requires leases.Valid() && act.key !in leases.rows && act.leaseId == leases.next && a !in acts
    requires LeasesOk(leases.rows, items, acts, tasks)
    ensures leases.Add(act.key, kind, ForActivity(a)).Valid()
    ensures LeasesOk(leases.Add(act.key, kind, ForActivity(a)).rows, items, acts[a := act], tasks)
  {
    hide ItemKey, Unfinished, Settling;
    var rows := leases.Add(act.key, kind, ForActivity(a)).rows;
    assert HoldersOk(rows, items, acts[a := act], tasks) && ActsHold(rows, acts[a := act]) by {
      hide ItemsHold, HoldsLease;
    }
    assert ItemsHold(rows, items, tasks) by {
      hide HoldersOk, ActsHold, HolderOk, LeaseTable.Valid;
    }
  }

  lemma NextActFresh(s: State)
    requires s.live.Up?
    requires ActsOk(s.db.entries.rows, s.db.prompts.rows, s.db.sessions.rows, s.db.logs, s.live.acts, s.nextAct)
    requires ChatOk(s.db.logs, s.db.sessions.rows, s.nextAct)
    ensures s.nextAct !in s.live.acts && Unheard(s.db.logs, s.nextAct)
  {
    hide TurnsOk, ActOk;
  }

  /** A new activity that holds a new lease. */
  lemma AcquireStep(env: Env, s: State, kind: LeaseKind, act: Activity)
    requires Inv(env, s) && s.live.Up?
    requires act.key !in s.db.leases.rows && act.leaseId == s.db.leases.next
    requires Unheard(s.db.logs, s.nextAct) ==>
      ActOk(s.db.entries.rows, s.db.prompts.rows, s.db.sessions.rows, s.db.logs, s.nextAct, act)
    ensures Inv(env, WithAct(s, s.db.(leases := s.db.leases.Add(act.key, kind, ForActivity(s.nextAct))), act))
  {
    hide EntriesValid, PromptsValid, ResultsValid, JobsOk, OneRunning, ItemsOk, BaselinesOk, TargetsDistinct, HistoryOrdered, HistoryOk;
    hide LeasesOk, TasksOk, WorkersOk, PrepsOk, BusyOk, Table.Valid, LeaseTable.Valid, ChatOk, ActOk;
    NextActFresh(s);
    AcquireKeepsLeases(s.db.leases, s.db.items.rows, s.live.acts, s.live.tasks, s.nextAct, kind, act);
    LeaseOnlyStep(env, s, WithAct(s, s.db.(leases := s.db.leases.Add(act.key, kind, ForActivity(s.nextAct))), act));
  }

  lemma StartReportStep(env: Env, s: State)
    requires Inv(env, s) && s.live.Up?
    ensures Inv(env, DoStartReport(s))
  {
    hide EntriesValid, ResultsValid, JobsOk, OneRunning, ItemsOk, BaselinesOk, TargetsDistinct, HistoryOrdered, HistoryOk, ChatOk, Attended;
    if AcquireLease(s.db, ReportKey, Direct, ForActivity(s.nextAct)).1.Success? {
      AcquireStep(env, s, Direct, Activity(DirectReport(s.db.activePrompt, false), ReportKey, s.db.leases.next));
    }
  }

  lemma StartRequestStep(env: Env, s: State, token: string)
    requires Inv(env, s) && s.live.Up?
    ensures Inv(env, DoStartRequest(s, token))
  {
    hide Stored, Attended;
    if AcquireLease(s.db, RequestKey(token), Request, ForActivity(s.nextAct)).1.Success? {
      AcquireStep(env, s, Request, Activity(RequestScoped, RequestKey(token), s.db.leases.next));
    }
  }

  lemma StartTurnStep(env: Env, s: State, thread: Key)
    requires Inv(env, s) && s.live.Up?
    ensures Inv(env, DoStartTurn(s, thread))
  {
    hide EntriesValid, PromptsValid, ResultsValid, JobsOk, OneRunning, ItemsOk, BaselinesOk, TargetsDistinct, HistoryOrdered, HistoryOk, ChatOk;
    hide LeasesOk, TasksOk, WorkersOk, ActsOk, PrepsOk, BusyOk;
    if (thread.ConversationKey? || ThreadExists(s.db.entries.rows, s.db.sessions.rows, thread))
       && AcquireLease(s.db, thread, Thread, ForActivity(s.nextAct)).1.Success? {
      if ThreadExists(s.db.entries.rows, s.db.sessions.rows, thread) {
        AcquireStep(env, s, Thread, Activity(Admitted, thread, s.db.leases.next));
      } else {
        AddThenDrop(s.db.leases, thread, Thread, ForActivity(s.nextAct));
        LeaseOnlyStep(env, s, DoStartTurn(s, thread));
      }
    }
  }

  /** A lease given straight back leaves the table as it was, but for the id counter. */
  lemma AddThenDrop(leases: LeaseTable, key: Key, kind: LeaseKind, holder: Holder)
    requires leases.Valid() && key !in leases.rows
    ensures leases.Add(key, kind, holder).DropId(leases.next) == LeaseTable(leases.rows, leases.next + 1)
    ensures LeaseTable(leases.rows, leases.next + 1).Valid()
  {
    assert leases.Add(key, kind, holder).DropId(leases.next).rows == leases.rows;
  }

  lemma ReleaseKeepsLeases(leases: LeaseTable, items: map<int, Item>, acts: map<int, Activity>, tasks: map<int, TaskPc>, a: int)
    requires leases.Valid() && a in acts
    requires LeasesOk(leases.rows, items, acts, tasks)
    ensures leases.DropId(acts[a].leaseId).Valid()
    ensures leases.DropId(acts[a].leaseId).rows == leases.rows - {acts[a].key}
    ensures LeasesOk(leases.DropId(acts[a].leaseId).rows, items, acts - {a}, tasks)
  {
    assert leases.DropId(acts[a].leaseId).rows == leases.rows - {acts[a].key};
  }

  lemma ReleaseStep(env: Env, s: State, a: int)
    requires Inv(env, s) && s.live.Up?
    ensures Inv(env, DoRelease(s, a))
  {
    hide EntriesValid, PromptsValid, ResultsValid, JobsOk, OneRunning, ItemsOk, BaselinesOk, TargetsDistinct, HistoryOrdered, HistoryOk, ChatOk;
    hide LeasesOk, TasksOk, WorkersOk, PrepsOk, BusyOk, LeaseTable.Valid, ActOk;
    if a in s.live.acts {
      ReleaseKeepsLeases(s.db.leases, s.db.items.rows, s.live.acts, s.live.tasks, a);
      LeaseOnlyStep(env, s, DoRelease(s, a));
    }
  }

  // ------------------------------------------------------------------ results

  /** A fresh row for one entry becomes that entry's current result and nobody else's. */
  lemma {:induction false} HighestAfterInsert(rows: map<int, ResultRow>, row: ResultRow, bound: int, id: int, other: Option<int>)
    requires 0 <= bound <= id && (forall k :: k in rows ==> k < id)
    requires row.entryId != other
    ensures Highest(rows[id := row], other, bound) == Highest(rows, other, bound)
  {
    if bound > 0 {
      HighestAfterInsert(rows, row, bound - 1, id, other);
    }
  }

  lemma CurrentAfterInsert(results: Table<ResultRow>, row: ResultRow, other: Option<int>)
    requires results.Valid()
    ensures row.ok ==> Current(results.Insert(row), row.entryId) == Some(results.next)
    ensures row.entryId != other ==> Current(results.Insert(row), other) == Current(results, other)
  {
    if row.entryId != other {
      HighestAfterInsert(results.rows, row, results.next, results.next, other);
    }
  }

  lemma ContributionsAfter(history: seq<Produced>, p: Produced, i: int)
    ensures Contributions(history + [p], i) == Contributions(history, i) + if p.origin == ForItem(i) then 1 else 0
  {
    assert (history + [p])[..|history|] == history;
  }

  lemma HistoryGrows(history: seq<Produced>, p: Produced, nextCommentary: int, nextReport: int)
    requires HistoryOrdered(history, nextCommentary, nextReport)
    requires p.resultId == if p.targetType == EntryCommentary then nextCommentary else nextReport
    ensures p.targetType == EntryCommentary ==> HistoryOrdered(history + [p], nextCommentary + 1, nextReport)
    ensures p.targetType == AggregateReport ==> HistoryOrdered(history + [p], nextCommentary, nextReport + 1)
  {
  }

  /** A row produced for an activity is nobody's contribution. */
  lemma HistoryOfActivity(jobs: map<int, Job>, items: Table<Item>, history: seq<Produced>, p: Produced)
    requires HistoryOk(jobs, items, history) && p.origin.ForActivity?
    ensures HistoryOk(jobs, items, history + [p])
  {
    hide Backed;
    forall i ensures Contributions(history + [p], i) == Contributions(history, i) {
      ContributionsAfter(history, p, i);
    }
    forall i | i in items.rows && RecordedOnce(items.rows[i], history, i) ensures RecordedOnce(items.rows[i], history + [p], i) {
    }
  }

  /** No unfinished item waits on the report while somebody else holds its lease. */
  lemma ReportHasNoItem(s: State, a: int, i: int)
    requires s.live.Up? && a in s.live.acts && s.live.acts[a].key == ReportKey
    requires LeasesOk(s.db.leases.rows, s.db.items.rows, s.live.acts, s.live.tasks)
    requires i in s.db.items.rows && Unfinished(s.db.items.rows[i])
    ensures ItemKey(s.db.items.rows[i]) != Some(ReportKey)
  {
    assert HoldsLease(s.db.leases.rows, s.db.items.rows, i);
  }

  lemma SaveReportStep(env: Env, s: State, a: int, text: string)
    requires Inv(env, s) && s.live.Up?
    ensures Inv(env, DoSaveReport(s, a, text))
  {
    hide EntriesValid, PromptsValid, JobsOk, OneRunning, ItemsOk, BaselinesOk, TargetsDistinct, HistoryOrdered, HistoryOk, ChatOk;
    hide LeasesOk, TasksOk, WorkersOk, PrepsOk, BusyOk, LeaseTable.Valid;
    var after := DoSaveReport(s, a, text);
    if after != s {
      var row := ResultRow(None, s.live.acts[a].kind.promptId.value, true, text);
      var p := Produced(AggregateReport, s.db.reports.next, ForActivity(a));
      HistoryGrows(s.history, p, s.db.commentary.next, s.db.reports.next);
      HistoryOfActivity(s.db.jobs.rows, s.db.items, s.history, p);
      assert BaselinesOk(after.db.jobs.rows, after.db.items.rows, after.db.commentary, after.db.reports) by {
        SaveReportBaselines(s, a, row);
      }
      assert LeasesOk(after.db.leases.rows, after.db.items.rows, after.live.acts, after.live.tasks) by {
        ActsKeepKeys(s.db.leases.rows, s.db.items.rows, s.live.acts, after.live.acts, s.live.tasks);
      }
    }
  }

  lemma SaveReportBaselines(s: State, a: int, row: ResultRow)
    requires s.live.Up? && a in s.live.acts && s.live.acts[a].key == ReportKey
    requires LeasesOk(s.db.leases.rows, s.db.items.rows, s.live.acts, s.live.tasks)
    requires BaselinesOk(s.db.jobs.rows, s.db.items.rows, s.db.commentary, s.db.reports)
    ensures BaselinesOk(s.db.jobs.rows, s.db.items.rows, s.db.commentary, s.db.reports.Insert(row))
  {
    hide LeasesOk;
    forall i | InFlight(s.db.jobs.rows, s.db.items.rows, i) ensures s.db.items.rows[i].targetType == EntryCommentary {
      ReportHasNoItem(s, a, i);
    }
  }

  /** Activities that keep their keys and lease ids keep the lease table in order. */
  lemma ActsKeepKeys(leases: map<Key, Lease>, items: map<int, Item>, acts: map<int, Activity>, later: map<int, Activity>, tasks: map<int, TaskPc>)
    requires LeasesOk(leases, items, acts, tasks)
    requires later.Keys == acts.Keys
    requires forall a :: a in acts ==> later[a].key == acts[a].key && later[a].leaseId == acts[a].leaseId
    ensures LeasesOk(leases, items, later, tasks)
  {
    hide ItemsHold, ItemKey, Unfinished, Settling;
    forall a ensures a in acts <==> a in later {
      assert a in acts.Keys <==> a in later.Keys;
    }
  }

  // ------------------------------------------------------------------ chat turns

  /** Two live activities never share a key. */
  lemma KeysExclusive(leases: map<Key, Lease>, acts: map<int, Activity>, a: int, b: int)
    requires ActsHold(leases, acts) && a in acts && b in acts && acts[a].key == acts[b].key
    ensures a == b
  {
  }

  lemma AskTurns(log: seq<Message>, m: Message)
    requires TurnsOk(log) && m.role == User
    requires forall n :: 0 <= n < |log| ==> log[n].turn != m.turn
    ensures TurnsOk(log + [m])
  {
  }

  lemma AnswerTurns(log: seq<Message>, m: Message)
    requires TurnsOk(log) && m.role == Assistant
    requires |log| > 0 && log[|log| - 1].role == User && log[|log| - 1].turn == m.turn
    ensures TurnsOk(log + [m])
  {
    var last := |log| - 1;
    forall n | 0 <= n < last ensures log[n].turn != m.turn {
    }
  }

  /** What appending one message to thread t keeps: the chat's shape, and every other activity. */
  lemma SayKeepsChat(logs: map<Key, seq<Message>>, later: map<Key, seq<Message>>, sessions: map<int, string>, nextAct: int, t: Key, m: Message)
    requires ChatOk(logs, sessions, nextAct) && m.turn < nextAct
    requires t.ConversationKey? ==> t.sessionId in sessions
    requires later == logs[t := (if t in logs then logs[t] else []) + [m]]
    requires TurnsOk(later[t])
    ensures ChatOk(later, sessions, nextAct)
  {
    hide TurnsOk;
  }

  lemma SayKeepsAct(entries: Entries, prompts: map<int, Prompt>, sessions: map<int, string>,
                    logs: map<Key, seq<Message>>, later: map<Key, seq<Message>>, b: int, act: Activity, t: Key, m: Message)
    requires ActOk(entries, prompts, sessions, logs, b, act)
    requires later == logs[t := (if t in logs then logs[t] else []) + [m]]
    requires m.turn != b && act.key != t
    ensures ActOk(entries, prompts, sessions, later, b, act)
  {
  }

  lemma SpeakActs(s: State, a: int, m: Message, kind: ActivityKind)
    requires s.live.Up? && a in s.live.acts && m.turn == a
    requires ActsHold(s.db.leases.rows, s.live.acts)
    requires ActsOk(s.db.entries.rows, s.db.prompts.rows, s.db.sessions.rows, s.db.logs, s.live.acts, s.nextAct)
    requires ThreadExists(s.db.entries.rows, s.db.sessions.rows, s.live.acts[a].key)
    requires (kind == Turn(false) && m.role == User) || kind == Turn(true)
    ensures ActsOk(s.db.entries.rows, s.db.prompts.rows, s.db.sessions.rows, Say(s.db, s.live.acts[a].key, m).logs,
                   s.live.acts[a := s.live.acts[a].(kind := kind)], s.nextAct)
  {
    var t := s.live.acts[a].key;
    var later := Say(s.db, t, m).logs;
    var acts := s.live.acts[a := s.live.acts[a].(kind := kind)];
    forall b | b in acts ensures b < s.nextAct && ActOk(s.db.entries.rows, s.db.prompts.rows, s.db.sessions.rows, later, b, acts[b]) {
      if b != a {
        if s.live.acts[b].key == t {
          KeysExclusive(s.db.leases.rows, s.live.acts, a, b);
        }
        SayKeepsAct(s.db.entries.rows, s.db.prompts.rows, s.db.sessions.rows, s.db.logs, later, b, acts[b], t, m);
      }
    }
  }

  lemma SpeakStep(env: Env, s: State, a: int, m: Message, kind: ActivityKind)
    requires Inv(env, s) && s.live.Up? && a in s.live.acts && m.turn == a
    requires (s.live.acts[a].kind == Admitted && kind == Turn(false) && m.role == User)
          || (s.live.acts[a].kind == Turn(false) && kind == Turn(true) && m.role == Assistant)
    ensures Inv(env, s.(db := Say(s.db, s.live.acts[a].key, m),
                        live := s.live.(acts := s.live.acts[a := s.live.acts[a].(kind := kind)])))
  {
    hide EntriesValid, PromptsValid, ResultsValid, JobsOk, OneRunning, ItemsOk, BaselinesOk, TargetsDistinct, HistoryOrdered, HistoryOk;
    hide TasksOk, WorkersOk, PrepsOk, BusyOk, LeaseTable.Valid, HoldersOk, ItemsHold, Table.Valid;
    var t := s.live.acts[a].key;
    var later := Say(s.db, t, m).logs;
    var acts := s.live.acts[a := s.live.acts[a].(kind := kind)];
    assert LeasesOk(s.db.leases.rows, s.db.items.rows, acts, s.live.tasks) by {
      hide ActsOk, ChatOk;
      ActsKeepKeys(s.db.leases.rows, s.db.items.rows, s.live.acts, acts, s.live.tasks);
    }
    assert ActOk(s.db.entries.rows, s.db.prompts.rows, s.db.sessions.rows, s.db.logs, a, s.live.acts[a]);
    SpeakTurns(s.db, t, m);
    assert ChatOk(later, s.db.sessions.rows, s.nextAct) by {
      hide ActsHold, TurnsOk;
      SayKeepsChat(s.db.logs, later, s.db.sessions.rows, s.nextAct, t, m);
    }
    SpeakActs(s, a, m, kind);
  }

  lemma SpeakTurns(db: Db, t: Key, m: Message)
    requires t in db.logs ==> TurnsOk(db.logs[t])
    requires (m.role == User && Unheard(db.logs, m.turn)) || (m.role == Assistant && Asking(db.logs, m.turn, t))
    ensures TurnsOk(Say(db, t, m).logs[t])
  {
    if m.role == User {
      AskTurns(Log(db, t), m);
    } else {
      AnswerTurns(Log(db, t), m);
    }
  }

  lemma AskStep(env: Env, s: State, a: int, text: string)
    requires Inv(env, s) && s.live.Up?
    ensures Inv(env, DoAsk(s, a, text))
  {
    hide Stored, Attended;
    if a in s.live.acts && s.live.acts[a].kind.Admitted? {
      SpeakStep(env, s, a, Message(User, a, text), Turn(false));
    }
  }

  lemma AnswerStep(env: Env, s: State, a: int, text: string)
    requires Inv(env, s) && s.live.Up?
    ensures Inv(env, DoAnswer(s, a, text))
  {
    hide Stored, Attended;
    if a in s.live.acts && s.live.acts[a].kind == Turn(false) {
      SpeakStep(env, s, a, Message(Assistant, a, text), Turn(true));
    }
  }

  // ------------------------------------------------------------------ the new-conversation handoff

  /** Every conversation lease names an existing session. */
  lemma ConversationLeaseNamesSession(s: State, id: int)
    requires s.live.Up? && ConversationKey(id) in s.db.leases.rows
    requires LeasesOk(s.db.leases.rows, s.db.items.rows, s.live.acts, s.live.tasks)
    requires ActsOk(s.db.entries.rows, s.db.prompts.rows, s.db.sessions.rows, s.db.logs, s.live.acts, s.nextAct)
    ensures id in s.db.sessions.rows
  {
    var k := ConversationKey(id);
    assert HolderOk(k, s.db.leases.rows[k], s.db.items.rows, s.live.acts, s.live.tasks);
    match s.db.leases.rows[k].holder
    case ForItem(i) =>
    case ForActivity(a) =>
      assert ActOk(s.db.entries.rows, s.db.prompts.rows, s.db.sessions.rows, s.db.logs, a, s.live.acts[a]);
  }

  lemma RekeyIs(leases: LeaseTable, from: Key, id: int, key: Key)
    requires leases.Valid() && from in leases.rows && leases.rows[from].id == id
    ensures leases.HasId(id)
    ensures leases.Rekey(id, key) == LeaseTable((leases.rows - {from})[key := leases.rows[from]], leases.next)
    ensures key !in leases.rows ==> leases.Rekey(id, key).Valid()
  {
  }

  lemma RekeyKeepsLeases(leases: map<Key, Lease>, items: map<int, Item>, acts: map<int, Activity>, tasks: map<int, TaskPc>,
                         a: int, later: Activity)
    requires LeasesOk(leases, items, acts, tasks) && a in acts
    requires later.key !in leases && later.leaseId == acts[a].leaseId
    ensures LeasesOk((leases - {acts[a].key})[later.key := leases[acts[a].key]], items, acts[a := later], tasks)
  {
    hide ItemKey, Unfinished, Settling;
    var rows := (leases - {acts[a].key})[later.key := leases[acts[a].key]];
    assert HoldersOk(rows, items, acts[a := later], tasks) && ActsHold(rows, acts[a := later]) by {
      hide ItemsHold, HoldsLease;
    }
    assert ItemsHold(rows, items, tasks) by {
      hide HoldersOk, HolderOk;
    }
  }

  /** The handoff of a live request is never refused: its lease is still there and the new thread's
      key is free. */
  lemma HandoffSucceeds(env: Env, s: State, a: int, title: string, m: Message)
    requires Inv(env, s) && s.live.Up? && a in s.live.acts
    ensures Handoff(s.db, s.live.acts[a].leaseId, title, m).1 == Success(s.db.sessions.next)
    ensures ConversationKey(s.db.sessions.next) !in s.db.leases.rows && ConversationKey(s.db.sessions.next) !in s.db.logs
  {
    hide EntriesValid, PromptsValid, ResultsValid, JobsOk, OneRunning, ItemsOk, BaselinesOk, TargetsDistinct, HistoryOrdered, HistoryOk;
    hide TasksOk, WorkersOk, ActsOk, PrepsOk, BusyOk, HoldersOk, ItemsHold, TurnsOk;
    var id := s.db.sessions.next;
    RekeyIs(s.db.leases, s.live.acts[a].key, s.live.acts[a].leaseId, ConversationKey(id));
    if ConversationKey(id) in s.db.leases.rows {
      ConversationLeaseNamesSession(s, id);
    }
  }

  lemma HandOffActs(s: State, a: int, title: string, m: Message, leaseId: int)
    requires s.live.Up? && a in s.live.acts && m.turn == a && m.role == User && s.db.sessions.Valid()
    requires ActsOk(s.db.entries.rows, s.db.prompts.rows, s.db.sessions.rows, s.db.logs, s.live.acts, s.nextAct)
    requires ConversationKey(s.db.sessions.next) !in s.db.logs
    ensures var id := s.db.sessions.next;
      ActsOk(s.db.entries.rows, s.db.prompts.rows, s.db.sessions.Insert(title).rows, s.db.logs[ConversationKey(id) := [m]],
             s.live.acts[a := Activity(Turn(false), ConversationKey(id), leaseId)], s.nextAct)
  {
    var id := s.db.sessions.next;
    var t := ConversationKey(id);
    var sessions, later := s.db.sessions.Insert(title).rows, s.db.logs[t := [m]];
    forall b | b in s.live.acts && b != a ensures ActOk(s.db.entries.rows, s.db.prompts.rows, sessions, later, b, s.live.acts[b]) {
      assert ActOk(s.db.entries.rows, s.db.prompts.rows, s.db.sessions.rows, s.db.logs, b, s.live.acts[b]);
    }
  }

  lemma HandOffStep(env: Env, s: State, a: int, title: string, text: string)
    requires Inv(env, s) && s.live.Up?
    ensures Inv(env, DoHandOff(s, a, title, text))
  {
    hide EntriesValid, PromptsValid, ResultsValid, JobsOk, OneRunning, ItemsOk, BaselinesOk, TargetsDistinct, HistoryOrdered, HistoryOk;
    hide TasksOk, WorkersOk, PrepsOk, BusyOk, LeaseTable.Valid, LeaseTable.Rekey, LeasesOk, ActOk, LeaseTable.HasId;
    if a in s.live.acts && s.live.acts[a].kind.RequestScoped? {
      var m := Message(User, a, text);
      var id := s.db.sessions.next;
      var t := ConversationKey(id);
      HandoffSucceeds(env, s, a, title, m);
      var act := Activity(Turn(false), t, s.live.acts[a].leaseId);
      assert ActsHold(s.db.leases.rows, s.live.acts) by {
        assert LeasesOk(s.db.leases.rows, s.db.items.rows, s.live.acts, s.live.tasks);
        LeasesOkParts(s.db.leases.rows, s.db.items.rows, s.live.acts, s.live.tasks);
      }
      RekeyIs(s.db.leases, s.live.acts[a].key, act.leaseId, t);
      RekeyKeepsLeases(s.db.leases.rows, s.db.items.rows, s.live.acts, s.live.tasks, a, act);
      HandOffActs(s, a, title, m, act.leaseId);
      assert [] + [m] == [m];
    } else {
      assert DoHandOff(s, a, title, text) == s;
    }
  }

  lemma LeasesOkParts(leases: map<Key, Lease>, items: map<int, Item>, acts: map<int, Activity>, tasks: map<int, TaskPc>)
    requires LeasesOk(leases, items, acts, tasks)
    ensures HoldersOk(leases, items, acts, tasks) && ActsHold(leases, acts) && ItemsHold(leases, items, tasks)
  {
  }

  // ------------------------------------------------------------------ deleting a session

  /** A session nobody holds the thread of is nobody's thread. */
  lemma RemoveSessionActs(s: State, id: int)
    requires s.live.Up? && ConversationKey(id) !in s.db.leases.rows
    requires ActsHold(s.db.leases.rows, s.live.acts)
    requires ActsOk(s.db.entries.rows, s.db.prompts.rows, s.db.sessions.rows, s.db.logs, s.live.acts, s.nextAct)
    ensures ActsOk(s.db.entries.rows, s.db.prompts.rows, s.db.sessions.rows - {id}, s.db.logs - {ConversationKey(id)}, s.live.acts, s.nextAct)
  {
    forall b | b in s.live.acts
      ensures ActOk(s.db.entries.rows, s.db.prompts.rows, s.db.sessions.rows - {id}, s.db.logs - {ConversationKey(id)}, b, s.live.acts[b])
    {
      assert ActOk(s.db.entries.rows, s.db.prompts.rows, s.db.sessions.rows, s.db.logs, b, s.live.acts[b]);
      assert s.live.acts[b].key != ConversationKey(id);
    }
  }

  lemma RemoveSessionStep(env: Env, s: State, id: int)
    requires Inv(env, s) && s.live.Up?
    ensures Inv(env, s.(db := DeleteSession(s.db, id).0))
  {
    hide EntriesValid, PromptsValid, ResultsValid, JobsOk, OneRunning, ItemsOk, BaselinesOk, TargetsDistinct, HistoryOrdered, HistoryOk;
    hide TasksOk, WorkersOk, PrepsOk, BusyOk, LeasesOk, ActOk, TurnsOk, ActsOk;
    if DeleteSession(s.db, id).1.Success? {
      LeasesOkParts(s.db.leases.rows, s.db.items.rows, s.live.acts, s.live.tasks);
      RemoveSessionActs(s, id);
    }
  }

  // ------------------------------------------------------------------ preparing a batch

  lemma {:induction false} PreparedEntriesMatch(env: Env, all: seq<Entry>, prompt: Prompt, ids: seq<int>)
    requires PreparedEntries(env, all, prompt, ids).Some?
    ensures var ts := PreparedEntries(env, all, prompt, ids).value;
      && |ts| == |ids|
      && forall n :: 0 <= n < |ts| ==>
           && ts[n].Valid() && ts[n].targetType == EntryCommentary && ts[n].entryId == Some(ids[n])
           && PreparedTarget(env, all, prompt, EntryCommentary, Some(ids[n])) == Some(ts[n])
  {
    if ids != [] {
      PreparedEntriesMatch(env, all, prompt, ids[..|ids| - 1]);
    }
  }

  lemma PreparedAllMatch(env: Env, entries: Entries, prompt: Prompt, ids: seq<int>)
    requires Known(entries, ids) && PreparedAll(env, Resolve(entries, ids), prompt, ids).Some?
    ensures TargetsMatch(env, entries, prompt, ids, PreparedAll(env, Resolve(entries, ids), prompt, ids).value)
  {
    hide Resolve;
    PreparedEntriesMatch(env, Resolve(entries, ids), prompt, ids);
  }

  lemma PrepStep(env: Env, s: State, prep: Prep)
    requires Inv(env, s) && s.live.Up? && PrepOk(env, s.db.entries.rows, s.db.prompts.rows, prep)
    ensures Inv(env, WithPrep(s, prep))
  {
    hide EntriesValid, PromptsValid, ResultsValid, JobsOk, OneRunning, ItemsOk, BaselinesOk, TargetsDistinct, HistoryOrdered, HistoryOk;
    hide TasksOk, WorkersOk, BusyOk, LeasesOk, ActOk, TurnsOk, PrepOk;
  }

  lemma PrepareOneStep(env: Env, s: State, entry: int)
    requires Inv(env, s) && s.live.Up? && s.db.entries.Valid()
    ensures Inv(env, DoPrepareOne(env, s, entry))
  {
    hide Stored, Attended, Resolve, OrderedIds;
    var after := DoPrepareOne(env, s, entry);
    if after != s {
      var id := s.db.activePrompt.value;
      var p := PreparedTarget(env, LiveArchive(s.db.entries), s.db.prompts.rows[id], EntryCommentary, Some(entry)).value;
      var prep := Prep(Existing(id), OrderedIds(s.db.entries), [p]);
      OrderedKnown(s.db.entries);
      PrepStep(env, s, prep);
    }
  }

  lemma OrderedKnown(entries: Table<Entry>)
    requires entries.Valid()
    ensures Known(entries.rows, OrderedIds(entries))
  {
  }

  lemma PrepareAllStep(env: Env, s: State, draft: Option<Prompt>)
    requires Inv(env, s) && s.live.Up? && s.db.entries.Valid()
    ensures Inv(env, DoPrepareAll(env, s, draft))
  {
    hide Stored, Attended, Resolve, OrderedIds, PreparedAll, TargetsMatch;
    var after := DoPrepareAll(env, s, draft);
    var ids := OrderedIds(s.db.entries);
    OrderedKnown(s.db.entries);
    if after != s {
      var prompt := if draft.Some? then draft.value else s.db.prompts.rows[s.db.activePrompt.value];
      var choice := if draft.Some? then Activate(prompt.body, prompt.model) else Existing(s.db.activePrompt.value);
      PreparedAllMatch(env, s.db.entries.rows, prompt, ids);
      PrepStep(env, s, Prep(choice, ids, PreparedAll(env, LiveArchive(s.db.entries), prompt, ids).value));
    }
  }
}
