/** The routes that hold a lease, each run from start to end: acquire, check, write, stream, write,
    release. Their interleavings with everything else are the steps of GenerationSafety; here it is
    what one request does to the database, on every way it can end. */
module Routes {
  import opened Tables
  import opened TargetKeys
  import opened Archive
  import opened Store
  import opened Database
  import opened SafetySteps
  import opened Texts
  import GenerationSafety

  /** What the model does for one request: whether the prepared request fits, the tokens streamed,
      and whether the stream ran to its end with the client still there. */
  datatype Generation = Generation(fits: bool, tokens: seq<string>, completes: bool)

  /** `TitleFailed`: the reply is stored, but the stream ends without its done event. */
  datatype Ending = Refused(refusal: Refusal) | TooLarge | Broken | TitleFailed | Answered

  /** Nothing but the id counter of the lease table differs from `db`: so many leases have been taken
      and given back. */
  predicate LeasesReturned(db: Db, later: Db, taken: nat) {
    later == db.(leases := LeaseTable(db.leases.rows, db.leases.next + taken))
  }

  predicate LeaseReturned(db: Db, later: Db) {
    LeasesReturned(db, later, 1)
  }

  /** `trigger_report`: the report is saved exactly if the stream completed, under the prompt that was
      active when the request began, and the lease is given back whatever happens. */
  method TriggerReport(db: Database, holder: Holder, g: Generation) returns (ending: Ending)
    requires db.leases.Valid()
    modifies db
    ensures ending == (
      if old(db.locked) then Refused(MaintenanceLocked)
      else if ReportKey in old(db.leases.rows) then Refused(TargetBusy(ReportKey))
      else if old(db.activePrompt).None? || !g.fits then TooLarge
      else if !g.completes then Broken
      else Answered)
    ensures ending.Refused? ==> db.State() == old(db.State())
    ensures ending.TooLarge? || ending.Broken? ==> LeaseReturned(old(db.State()), db.State())
    ensures ending.Answered? ==> LeaseReturned(InsertReport(old(db.State()), old(db.activePrompt).value, Text(g.tokens)), db.State())
    ensures ending.Answered? ==>
      var id := old(db.reports.next);
      id in db.reports.rows && IsJoined(db.reports.rows[id].body, g.tokens)
      && db.reports.rows == old(db.reports.rows)[id := ResultRow(None, old(db.activePrompt).value, true, db.reports.rows[id].body)]
  {
    TextIsTheTokens(Text(g.tokens), g.tokens);
    var acquired := db.AcquireLease(ReportKey, Direct, holder);
    if acquired.Failure? {
      return Refused(acquired.error);
    }
    AddThenDrop(old(db.leases), ReportKey, Direct, holder);
    var prompt := db.activePrompt;
    if prompt.None? || !g.fits {
      db.ReleaseLease(acquired.value);
      return TooLarge;
    }
    var text := Collect(g.tokens);
    if !g.completes {
      db.ReleaseLease(acquired.value);
      return Broken;
    }
    db.InsertReportRow(prompt.value, text);
    db.ReleaseLease(acquired.value);
    return Answered;
  }

  /** One turn on an existing thread (`send_session_message`, `entry_chat`): the question is stored
      only once the request is known to fit, the reply only if the stream completed. */
  method SendMessage(db: Database, thread: Key, turn: int, question: string, g: Generation) returns (ending: Ending)
    requires db.leases.Valid() && (thread.ConversationKey? || thread.EntryThreadKey?)
    modifies db
    ensures var found := GenerationSafety.ThreadExists(old(db.entries.rows), old(db.sessions.rows), thread);
      ending == (
        if thread.EntryThreadKey? && !found then Refused(NotFound)
        else if old(db.locked) then Refused(MaintenanceLocked)
        else if thread in old(db.leases.rows) then Refused(TargetBusy(thread))
        else if !found then Refused(NotFound)
        else if !g.fits then TooLarge
        else if !g.completes then Broken
        else Answered)
    ensures ending.Refused? ==>
      if ending == Refused(NotFound) && thread.ConversationKey? then LeaseReturned(old(db.State()), db.State()) else db.State() == old(db.State())
    ensures ending.TooLarge? ==> LeaseReturned(old(db.State()), db.State())
    ensures ending.Answered? ==>
      var earlier := if thread in old(db.logs) then old(db.logs[thread]) else [];
      thread in db.logs && db.logs[thread] != []
      && var reply := db.logs[thread][|db.logs[thread]| - 1].content;
         IsJoined(reply, g.tokens) && db.logs[thread] == earlier + [Message(User, turn, question)] + [Message(Assistant, turn, reply)]
    ensures ending.Broken? ==> LeaseReturned(Say(old(db.State()), thread, Message(User, turn, question)), db.State())
    ensures ending.Answered? ==>
      LeaseReturned(Say(Say(old(db.State()), thread, Message(User, turn, question)), thread, Message(Assistant, turn, Text(g.tokens))), db.State())
  {
    TextIsTheTokens(Text(g.tokens), g.tokens);
    if thread.EntryThreadKey? && !GenerationSafety.ThreadExists(db.entries.rows, db.sessions.rows, thread) {
      return Refused(NotFound);
    }
    var acquired := db.AcquireLease(thread, Thread, ForActivity(turn));
    if acquired.Failure? {
      return Refused(acquired.error);
    }
    AddThenDrop(old(db.leases), thread, Thread, ForActivity(turn));
    if !GenerationSafety.ThreadExists(db.entries.rows, db.sessions.rows, thread) {
      db.ReleaseLease(acquired.value);
      return Refused(NotFound);
    }
    if !g.fits {
      db.ReleaseLease(acquired.value);
      return TooLarge;
    }
    db.InsertMessage(thread, Message(User, turn, question));
    var text := Collect(g.tokens);
    if !g.completes {
      db.ReleaseLease(acquired.value);
      return Broken;
    }
    db.InsertMessage(thread, Message(Assistant, turn, text));
    db.ReleaseLease(acquired.value);
    return Answered;
  }

  // ------------------------------------------------------------------ a new conversation and its title

  /** The title's own task beside the stream: whether it gets to run before the reply is stored,
      whether it ends before that, whether maintenance has been locked by then, and its generation. */
  datatype TitleTask = TitleTask(token: string, holder: Holder, startsEarly: bool, endsEarly: bool, locks: bool, g: Generation)

  /** What `_generate_title_or_none` returns, once it has its lease. */
  function Generated(g: Generation): Option<string> {
    if g.fits && g.completes && Stripped(Text(g.tokens)) != "" then Some(Stripped(Text(g.tokens))) else None
  }

  method GenerateTitle(g: Generation) returns (title: Option<string>)
    ensures title == Generated(g)
  {
    if !g.fits {
      return None;
    }
    var text := Collect(g.tokens);
    var stripped := Stripped(text);
    return if g.completes && stripped != "" then Some(stripped) else None;
  }

  /** A title lease taken and given back while other leases stand. */
  method ReleaseTitle(db: Database, lease: Result<int, Refusal>, ghost before: LeaseTable, key: Key, holder: Holder)
    requires before.Valid()
    requires lease.Success? ==> lease.value == before.next && key !in before.rows && db.leases == before.Add(key, Request, holder)
    requires lease.Failure? ==> db.leases == before
    modifies db
    ensures db.State() == old(db.State()).(leases := LeaseTable(before.rows, before.next + if lease.Success? then 1 else 0))
  {
    if lease.Success? {
      AddThenDrop(before, key, Request, holder);
      db.ReleaseLease(lease.value);
    }
  }

  /** A lease acquired, moved to another free key and given back leaves the others as they were, however
      many others have been taken and given back meanwhile. */
  lemma MovedAndReturned(leases: LeaseTable, from: Key, to: Key, kind: LeaseKind, holder: Holder)
    requires leases.Valid() && from !in leases.rows && to !in leases.rows
    ensures leases.Add(from, kind, holder).HasId(leases.next)
    ensures var moved := leases.Add(from, kind, holder).Rekey(leases.next, to);
      && moved.Valid() && moved.next == leases.next + 1
      && moved.rows == leases.rows[to := moved.rows[to]]
      && forall n :: LeaseTable(moved.rows, n).DropId(leases.next) == LeaseTable(leases.rows, n)
  {
    hide LeaseTable.Rekey;
    var added := leases.Add(from, kind, holder);
    assert added.Valid();
    RekeyIs(added, from, leases.next, to);
    var moved := added.Rekey(leases.next, to);
    SameMap(moved.rows, leases.rows[to := added.rows[from]]);
    forall n: int ensures LeaseTable(moved.rows, n).DropId(leases.next) == LeaseTable(leases.rows, n) {
      DropTheAdded(leases, to, added.rows[from], n);
    }
    hide LeaseTable.DropId;
  }

  lemma DropTheAdded(leases: LeaseTable, to: Key, lease: Lease, n: int)
    requires leases.Valid() && to !in leases.rows && lease.id == leases.next
    ensures LeaseTable(leases.rows[to := lease], n).DropId(leases.next) == LeaseTable(leases.rows, n)
  {
    SameMap(LeaseTable(leases.rows[to := lease], n).DropId(leases.next).rows, leases.rows);
  }

  /** The session of a new conversation after its first question, before any reply. */
  function Asked(db: Db, title: string, turn: int, question: string): Db {
    Say(db.(sessions := db.sessions.Insert(title)), ConversationKey(db.sessions.next), Message(User, turn, question))
  }

  /** The reply stored and, with a new title, the session renamed. */
  function Replied(db: Db, session: int, turn: int, text: string, newTitle: Option<string>): Db {
    Say(db, ConversationKey(session), Message(Assistant, turn, text))
      .(sessions := if newTitle.Some? then db.sessions.Set(session, newTitle.value) else db.sessions)
  }

  /** Everything before the stream of a new conversation: a temporary lease, the size check, then
      session, question and the lease moved to the conversation, or nothing but a lease given back. */
  method OpenConversation(db: Database, token: string, turn: int, title: string, question: string, fits: bool) returns (r: Result<int, Ending>)
    requires db.leases.Valid()
    modifies db
    ensures var t := ConversationKey(old(db.sessions.next));
      if old(db.locked) then r == Failure(Refused(MaintenanceLocked)) && db.State() == old(db.State())
      else if RequestKey(token) in old(db.leases.rows) then r == Failure(Refused(TargetBusy(RequestKey(token)))) && db.State() == old(db.State())
      else if !fits then r == Failure(TooLarge) && LeaseReturned(old(db.State()), db.State())
      else if t in old(db.leases.rows) then r == Failure(Refused(TargetBusy(t))) && LeaseReturned(old(db.State()), db.State())
      else
        && r == Success(old(db.leases.next))
        && old(db.leases).Add(RequestKey(token), Request, ForActivity(turn)).HasId(old(db.leases.next))
        && db.State() == Asked(old(db.State()), title, turn, question)
             .(leases := old(db.leases).Add(RequestKey(token), Request, ForActivity(turn)).Rekey(old(db.leases.next), t))
  {
    hide LeaseTable.Rekey, LeaseTable.DropId, LeaseTable.HasId;
    var acquired := db.AcquireLease(RequestKey(token), Request, ForActivity(turn));
    if acquired.Failure? {
      return Failure(Refused(acquired.error));
    }
    AddThenDrop(old(db.leases), RequestKey(token), Request, ForActivity(turn));
    if !fits {
      db.ReleaseLease(acquired.value);
      return Failure(TooLarge);
    }
    FreshLeaseStands(old(db.leases), RequestKey(token), Request, ForActivity(turn));
    var created := db.CreateSessionAndConvertLease(acquired.value, title, Message(User, turn, question));
    if created.Failure? {
      db.ReleaseLease(acquired.value);
      return Failure(Refused(created.error));
    }
    r := Success(acquired.value);
  }

  /** The conversation ends with the reply, and the reply is the streamed tokens joined in order. */
  ghost predicate LastReply(logs: map<Key, seq<Message>>, session: int, turn: int, tokens: seq<string>) {
    ConversationKey(session) in logs && logs[ConversationKey(session)] != []
    && var m := logs[ConversationKey(session)][|logs[ConversationKey(session)]| - 1];
       m.role == Assistant && m.turn == turn && IsJoined(m.content, tokens)
  }

  lemma SaidLast(db: Db, session: int, turn: int, tokens: seq<string>)
    ensures LastReply(Say(db, ConversationKey(session), Message(Assistant, turn, Text(tokens))).logs, session, turn, tokens)
  {
    TextIsTheTokens(Text(tokens), tokens);
    hide Text, IsJoined;
  }

  /** A title is the streamed tokens joined, without the space around them. */
  lemma GeneratedIsTheTokens(g: Generation) returns (before: string, after: string)
    ensures Generated(g).Some? <==> g.fits && g.completes && !AllSpace(Text(g.tokens))
    ensures Generated(g).Some? ==>
      IsJoined(before + Generated(g).value + after, g.tokens) && AllSpace(before) && AllSpace(after)
      && Generated(g).value != "" && !Space(Generated(g).value[0]) && !Space(Generated(g).value[|Generated(g).value| - 1])
  {
    hide Space, Text, IsJoined, Stripped;
    before, after := StrippedIsTheMiddle(Text(g.tokens));
    TextIsTheTokens(Text(g.tokens), g.tokens);
    var t := Stripped(Text(g.tokens));
    if t == "" {
      assert Text(g.tokens) == before + after;
    } else {
      assert Text(g.tokens)[|before|] == t[0];
    }
  }

  /** What the title task's request for its lease gets. */
  function TitleLease(task: TitleTask, locked: bool, before: LeaseTable): Result<int, Refusal> {
    if locked then Failure(MaintenanceLocked)
    else if RequestKey(task.token) in before.rows then Failure(TargetBusy(RequestKey(task.token)))
    else Success(before.next)
  }

  /** The title task acquires its lease, or gives it back, or both. */
  method RunTitle(db: Database, task: TitleTask, held: Result<int, Refusal>, ghost before: LeaseTable, starts: bool, ends: bool)
    returns (lease: Result<int, Refusal>)
    requires before.Valid() && (starts || ends)
    requires starts ==> db.leases == before
    requires !starts ==> held == TitleLease(task, db.locked, before)
    requires !starts ==> db.leases == if held.Success? then before.Add(RequestKey(task.token), Request, task.holder) else before
    modifies db
    ensures lease == TitleLease(task, old(db.locked), before)
    ensures db.State() == old(db.State()).(leases :=
      if lease.Failure? then before
      else if ends then LeaseTable(before.rows, before.next + 1)
      else before.Add(RequestKey(task.token), Request, task.holder))
  {
    lease := held;
    if starts {
      lease := db.AcquireLease(RequestKey(task.token), Request, task.holder);
    }
    if ends {
      ReleaseTitle(db, lease, before, RequestKey(task.token), task.holder);
    }
  }

  /** Rename the session if a title has come of the title task. */
  method NameSession(db: Database, session: int, title: string, lease: Result<int, Refusal>, g: Generation) returns (ending: Ending)
    modifies db`sessions
    ensures ending == if lease.Failure? && lease.error != MaintenanceLocked then TitleFailed else Answered
    ensures db.sessions == if lease.Success? && Generated(g).Some? then old(db.sessions).Set(session, title + SEPARATOR + Generated(g).value)
                           else old(db.sessions)
  {
    if lease.Failure? && lease.error != MaintenanceLocked {
      return TitleFailed;
    }
    if lease.Success? {
      var generated := GenerateTitle(g);
      if generated.Some? {
        db.sessions := db.sessions.Set(session, title + SEPARATOR + generated.value);
      }
    }
    return Answered;
  }

  /** The body of a new conversation's stream, with its title task beside it, under the conversation's
      lease. */
  method StreamReply(db: Database, session: int, turn: int, title: string, g: Generation, task: TitleTask) returns (ending: Ending)
    requires db.leases.Valid() && !db.locked
    modifies db
    ensures ending == if !g.completes then Broken
                      else if !task.locks && RequestKey(task.token) in old(db.leases.rows) then TitleFailed
                      else Answered
    ensures var locked := old(db.State()).(locked := task.locks);
      var named := if ending.Answered? && !task.locks && Generated(task.g).Some? then Some(title + SEPARATOR + Generated(task.g).value) else None;
      LeasesReturned(if ending.Broken? then locked else Replied(locked, session, turn, Text(g.tokens), named), db.State(),
                     if (!ending.Broken? || task.startsEarly) && TitleGranted(task, old(db.leases)) then 1 else 0)
    ensures !ending.Broken? ==> LastReply(db.logs, session, turn, g.tokens)
  {
    hide Stripped, Generated, Text, LeaseTable.Valid, LeaseTable.DropId, LastReply;
    ghost var before := db.leases;
    if task.locks {
      db.locked := true;
    }
    var lease := Failure(MaintenanceLocked);
    if task.startsEarly {
      lease := RunTitle(db, task, lease, before, true, task.endsEarly);
    }
    var text := Collect(g.tokens);
    if !g.completes {
      if task.startsEarly && !task.endsEarly {
        lease := RunTitle(db, task, lease, before, false, true);
      }
      return Broken;
    }
    SaidLast(db.State(), session, turn, g.tokens);
    db.InsertMessage(ConversationKey(session), Message(Assistant, turn, text));
    if !(task.startsEarly && task.endsEarly) {
      lease := RunTitle(db, task, lease, before, !task.startsEarly, true);
    }
    ending := NameSession(db, session, title, lease, task.g);
  }

  predicate TitleGranted(task: TitleTask, leases: LeaseTable) {
    !task.locks && RequestKey(task.token) !in leases.rows
  }

  /** `send_new_session_message`: session, question and lease conversion together, then the reply, with
      the title generated beside it. A request that does not fit, or loses its lease, creates no
      session; the reply is stored exactly if its stream completed; the session is renamed exactly if
      after that a title has come of its task, which a lock set meanwhile skips. Whenever the title's
      lease comes and goes, both leases are given back on every ending. */
  method SendNewSessionMessage(db: Database, token: string, turn: int, title: string, question: string, g: Generation, task: TitleTask)
    returns (ending: Ending, session: int)
    requires db.leases.Valid()
    modifies db
    ensures session == old(db.sessions.next)
    ensures var t := ConversationKey(session);
      ending == (
        if old(db.locked) then Refused(MaintenanceLocked)
        else if RequestKey(token) in old(db.leases.rows) then Refused(TargetBusy(RequestKey(token)))
        else if !g.fits then TooLarge
        else if t in old(db.leases.rows) then Refused(TargetBusy(t))
        else if !g.completes then Broken
        else if !task.locks && RequestKey(task.token) in old(db.leases.rows) then TitleFailed
        else Answered)
    ensures ending.Refused? ==>
      if ending == Refused(TargetBusy(ConversationKey(session))) then LeaseReturned(old(db.State()), db.State()) else db.State() == old(db.State())
    ensures ending.TooLarge? ==> LeaseReturned(old(db.State()), db.State())
    ensures ending.Broken? || ending.TitleFailed? || ending.Answered? ==>
      var asked := Asked(old(db.State()), title, turn, question).(locked := task.locks);
      var named := if ending.Answered? && !task.locks && Generated(task.g).Some? then Some(title + SEPARATOR + Generated(task.g).value) else None;
      var titled := (!ending.Broken? || task.startsEarly) && TitleGranted(task, old(db.leases));
      LeasesReturned(if ending.Broken? then asked else Replied(asked, session, turn, Text(g.tokens), named), db.State(), if titled then 2 else 1)
    ensures ending.TitleFailed? || ending.Answered? ==> LastReply(db.logs, session, turn, g.tokens)
  {
    hide LeaseTable.Rekey, LeaseTable.DropId, LeaseTable.HasId, LeaseTable.Valid, Stripped, Generated, Text;
    session := db.sessions.next;
    ghost var thread := ConversationKey(session);
    var begun := OpenConversation(db, token, turn, title, question, g.fits);
    if begun.Failure? {
      return begun.error, session;
    }
    MovedAndReturned(old(db.leases), RequestKey(token), thread, Request, ForActivity(turn));
    ending := StreamReply(db, session, turn, title, g, task);
    db.ReleaseLease(begun.value);
  }

  const SEPARATOR := " \U{B7} "

  lemma FreshLeaseStands(leases: LeaseTable, key: Key, kind: LeaseKind, holder: Holder)
    requires leases.Valid() && key !in leases.rows
    ensures leases.Add(key, kind, holder).Valid() && leases.Add(key, kind, holder).HasId(leases.next)
    ensures forall k :: k in leases.rows ==> leases.rows[k].id != leases.next
  {
    assert leases.Add(key, kind, holder).rows[key].id == leases.next;
  }
}
