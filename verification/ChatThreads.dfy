/** Chat threads: turns never interleave, and a reply never reaches a thread that is gone. */
module ChatThreads {
  import opened Tables
  import opened TargetKeys
  import opened Archive
  import opened Store
  import opened GenerationSafety
  import opened SafetyInvariant
  import opened SafetySteps
  import opened SafetyTheorems
  import opened Guarantees

  datatype ThreadTurn = Asked(question: Message) | Answered(question: Message, reply: Message)

  function Messages(turns: seq<ThreadTurn>): seq<Message> {
    if turns == [] then []
    else (match turns[0]
          case Asked(q) => [q]
          case Answered(q, r) => [q, r]) + Messages(turns[1..])
  }

  /** A question, or a question and the reply written by the same request. */
  predicate ProperTurn(t: ThreadTurn) {
    && t.question.role == User
    && (t.Answered? ==> t.reply.role == Assistant && t.reply.turn == t.question.turn)
  }

  ghost predicate ProperTurns(turns: seq<ThreadTurn>) {
    && (forall n :: 0 <= n < |turns| ==> ProperTurn(turns[n]))
    && (forall m, n :: 0 <= m < n < |turns| ==> turns[m].question.turn != turns[n].question.turn)
  }

  function Turns(log: seq<Message>): seq<ThreadTurn> {
    if log == [] then []
    else if |log| > 1 && log[1].role == Assistant then [Answered(log[0], log[1])] + Turns(log[2..])
    else [Asked(log[0])] + Turns(log[1..])
  }

  lemma {:induction false} TurnIds(log: seq<Message>, n: nat)
    requires n < |Turns(log)|
    ensures exists k :: 0 <= k < |log| && log[k] == Turns(log)[n].question
  {
    if n == 0 {
      assert log[0] == Turns(log)[0].question;
    } else if |log| > 1 && log[1].role == Assistant {
      TurnIds(log[2..], n - 1);
      var k :| 0 <= k < |log[2..]| && log[2..][k] == Turns(log[2..])[n - 1].question;
      assert log[k + 2] == Turns(log)[n].question;
    } else {
      TurnIds(log[1..], n - 1);
      var k :| 0 <= k < |log[1..]| && log[1..][k] == Turns(log[1..])[n - 1].question;
      assert log[k + 1] == Turns(log)[n].question;
    }
  }

  function Width(log: seq<Message>): (n: nat)
    requires log != []
    ensures 1 <= n <= |log|
  {
    if |log| > 1 && log[1].role == Assistant then 2 else 1
  }

  /** What is left after the first turn is again made of turns, of other requests. */
  lemma AfterFirstTurn(log: seq<Message>)
    requires TurnsOk(log) && log != []
    ensures TurnsOk(log[Width(log)..])
    ensures forall k :: Width(log) <= k < |log| && log[k].role == User ==> log[k].turn != log[0].turn
    ensures log[0].role == User
    ensures Width(log) == 2 ==> log[1].turn == log[0].turn
  {
    var rest := log[Width(log)..];
    assert forall k :: 0 <= k < |rest| ==> rest[k] == log[k + Width(log)];
    assert forall k :: Width(log) <= k < |log| ==> log[k] == rest[k - Width(log)];
  }

  function FirstTurn(log: seq<Message>): ThreadTurn
    requires log != []
  {
    if Width(log) == 2 then Answered(log[0], log[1]) else Asked(log[0])
  }

  lemma TurnsUnfold(log: seq<Message>)
    requires log != []
    ensures Turns(log) == [FirstTurn(log)] + Turns(log[Width(log)..])
  {
  }

  /** No later turn has the first one's request. */
  lemma LaterTurn(log: seq<Message>, n: nat)
    requires TurnsOk(log) && log != [] && n < |Turns(log[Width(log)..])| && ProperTurn(Turns(log[Width(log)..])[n])
    ensures Turns(log[Width(log)..])[n].question.turn != log[0].turn
  {
    AfterFirstTurn(log);
    var rest := log[Width(log)..];
    TurnIds(rest, n);
    hide TurnsOk, Turns;
    var k :| 0 <= k < |rest| && rest[k] == Turns(rest)[n].question;
    assert rest[k] == log[k + Width(log)];
  }

  lemma FirstTurnIsProper(log: seq<Message>)
    requires TurnsOk(log) && log != []
    requires ProperTurns(Turns(log[Width(log)..]))
    ensures ProperTurns(Turns(log))
  {
    AfterFirstTurn(log);
    TurnsUnfold(log);
    var rest := Turns(log[Width(log)..]);
    hide Turns, Width, TurnsOk;
    forall n | 0 <= n < |rest| ensures rest[n].question.turn != log[0].turn {
      LaterTurn(log, n);
    }
    ProperTurnsGrow(FirstTurn(log), rest);
  }

  lemma ProperTurnsGrow(t: ThreadTurn, rest: seq<ThreadTurn>)
    requires ProperTurn(t) && ProperTurns(rest)
    requires forall n :: 0 <= n < |rest| ==> rest[n].question.turn != t.question.turn
    ensures ProperTurns([t] + rest)
  {
    var turns := [t] + rest;
    assert forall n :: 0 < n < |turns| ==> turns[n] == rest[n - 1];
  }

  lemma {:induction false} LogIsTurns(log: seq<Message>)
    requires TurnsOk(log)
    ensures Messages(Turns(log)) == log && ProperTurns(Turns(log))
  {
    hide TurnsOk, ProperTurns;
    if log == [] {
      EmptyIsProper();
    } else {
      AfterFirstTurn(log);
      LogIsTurns(log[Width(log)..]);
      FirstTurnIsProper(log);
      assert log == log[..Width(log)] + log[Width(log)..];
    }
  }

  lemma EmptyIsProper()
    ensures ProperTurns([])
  {
  }

  /** In every reachable state every thread is a list of whole turns of different requests: two
      requests never interleave in one thread. */
  lemma ThreadsAreTurns(env: Env, s: State, t: Key)
    requires Reachable(env, s) && t in s.db.logs
    ensures Messages(Turns(s.db.logs[t])) == s.db.logs[t] && ProperTurns(Turns(s.db.logs[t]))
    ensures t.ConversationKey? ==> t.sessionId in s.db.sessions.rows
  {
    hide EntriesValid, PromptsValid, ResultsValid, JobsOk, OneRunning, ItemsOk, BaselinesOk, TargetsDistinct, HistoryOrdered, HistoryOk, Attended;
    hide Reachable, TurnsOk, Turns, Messages, ProperTurns;
    ReachableInv(env, s);
    LogIsTurns(s.db.logs[t]);
  }

  /** Every lease on a conversation names a conversation that exists. */
  lemma ConversationLeaseIsLive(env: Env, s: State, id: int)
    requires Reachable(env, s) && s.live.Up? && ConversationKey(id) in s.db.leases.rows
    ensures id in s.db.sessions.rows
  {
    hide Stored, TasksOk, WorkersOk, ActsOk, PrepsOk, BusyOk, LeasesOk, Reachable;
    ReachableInv(env, s);
    ConversationLeaseNamesSession(s, id);
  }

  /** A reply goes directly after its own question, in a thread that still exists. */
  lemma ReplyFollowsItsQuestion(env: Env, s: State, a: int, text: string)
    requires Reachable(env, s) && s.live.Up? && a in s.live.acts && s.live.acts[a].kind == Turn(false)
    ensures var t := s.live.acts[a].key;
      && ThreadExists(s.db.entries.rows, s.db.sessions.rows, t)
      && Asking(s.db.logs, a, t)
      && Apply(env, s, Answer(a, text)).db.logs == s.db.logs[t := s.db.logs[t] + [Message(Assistant, a, text)]]
  {
    hide EntriesValid, PromptsValid, ResultsValid, JobsOk, OneRunning, ItemsOk, BaselinesOk, TargetsDistinct, HistoryOrdered, HistoryOk, ChatOk;
    hide LeasesOk, TasksOk, WorkersOk, PrepsOk, BusyOk, Reachable;
    ReachableInv(env, s);
    EntriesTableValid(env, s);
    assert ActOk(s.db.entries.rows, s.db.prompts.rows, s.db.sessions.rows, s.db.logs, a, s.live.acts[a]);
  }

  /** A conversation with a turn in progress cannot be deleted. */
  lemma LiveThreadIsNotDeleted(env: Env, s: State, a: int, id: int)
    requires Reachable(env, s) && s.live.Up? && a in s.live.acts && s.live.acts[a].key == ConversationKey(id)
    ensures Apply(env, s, RemoveSession(id)) == s
  {
    hide Stored, TasksOk, WorkersOk, ActsOk, PrepsOk, BusyOk, HoldersOk, ItemsHold, Reachable, Table.Valid;
    ReachableInv(env, s);
    EntriesTableValid(env, s);
  }

  /** A conversation nobody works on is deleted as a whole, and nothing else is: its messages go with
      it, other threads, all leases and everything else stay. Maintenance does not matter. */
  lemma DeletionIsExact(env: Env, s: State, id: int)
    requires Reachable(env, s) && s.live.Up? && ConversationKey(id) !in s.db.leases.rows
    ensures var after := Apply(env, s, RemoveSession(id)).db;
      && id !in after.sessions.rows && ConversationKey(id) !in after.logs
      && (forall k :: k in s.db.sessions.rows && k != id ==> k in after.sessions.rows && after.sessions.rows[k] == s.db.sessions.rows[k])
      && (forall t :: t in s.db.logs && t != ConversationKey(id) ==> t in after.logs && after.logs[t] == s.db.logs[t])
      && after.sessions.rows.Keys <= s.db.sessions.rows.Keys && after.logs.Keys <= s.db.logs.Keys
      && after.leases.rows == s.db.leases.rows
      && after == s.db.(sessions := after.sessions, logs := after.logs, leases := after.leases)
  {
    hide Inv, Reachable, Table.Valid;
    ReachableInv(env, s);
    EntriesTableValid(env, s);
  }

  /** A question opens a new turn: nobody else's turn is in progress in the thread. */
  lemma OneTurnPerThread(env: Env, s: State, a: int, b: int)
    requires Reachable(env, s) && s.live.Up? && a in s.live.acts && b in s.live.acts && s.live.acts[a].key == s.live.acts[b].key
    ensures a == b
  {
    hide Stored, TasksOk, WorkersOk, ActsOk, PrepsOk, BusyOk, HoldersOk, ItemsHold, Reachable;
    ReachableInv(env, s);
    KeysExclusive(s.db.leases.rows, s.live.acts, a, b);
  }

  /** The handoff of a new conversation is never refused: session, first message and converted lease
      appear together, and the request goes on as a turn of that conversation. */
  lemma HandOffAlwaysSucceeds(env: Env, s: State, a: int, title: string, text: string)
    requires Reachable(env, s) && s.live.Up? && a in s.live.acts && s.live.acts[a].kind.RequestScoped?
    ensures var after := Apply(env, s, HandOff(a, title, text));
      var t := ConversationKey(s.db.sessions.next);
      && after.live.Up? && after.live.acts == s.live.acts[a := Activity(Turn(false), t, s.live.acts[a].leaseId)]
      && after.db.sessions == s.db.sessions.Insert(title)
      && t !in s.db.logs && after.db.logs == s.db.logs[t := [Message(User, a, text)]]
      && s.live.acts[a].key in s.db.leases.rows
      && after.db.leases.rows == (s.db.leases.rows - {s.live.acts[a].key})[t := s.db.leases.rows[s.live.acts[a].key]]
  {
    hide EntriesValid, PromptsValid, ResultsValid, JobsOk, OneRunning, ItemsOk, BaselinesOk, TargetsDistinct, HistoryOrdered, HistoryOk, ChatOk;
    hide TasksOk, WorkersOk, ActsOk, PrepsOk, BusyOk, HoldersOk, ItemsHold, Reachable, LeaseTable.HasId, LeaseTable.Valid, LeaseTable.Rekey;
    ReachableInv(env, s);
    EntriesTableValid(env, s);
    var m := Message(User, a, text);
    HandoffSucceeds(env, s, a, title, m);
    RekeyIs(s.db.leases, s.live.acts[a].key, s.live.acts[a].leaseId, ConversationKey(s.db.sessions.next));
    assert [] + [m] == [m];
  }
}
