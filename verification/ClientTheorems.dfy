/** What the client lifecycle guarantees over every interleaving, and that it never gets stuck. */
module ClientTheorems {
  import opened Tables
  import opened Totals
  import opened ClientLifecycle

  predicate AtEntry(p: Proc) {
    && !p.retried
    && match p.role
       case Stream => p.pc == SlotWait
       case Reader => p.pc == Admitting(true)
       case Refresh => p.pc == TransFlag(true)
       case Shutdown => p.pc == TransFlag(true)
  }

  /** Any callers at their entry points; a client may have been started at boot. */
  ghost predicate Initial(s: State) {
    && s.active == 0 && !s.refreshing && s.starter.None? && s.stops == []
    && (s.client.Some? ==> s.client.value < s.nextClient && s.generation in s.issued && s.issued[s.generation] == s.client.value)
    && (forall g :: g in s.issued ==> g <= s.generation)
    && forall i :: 0 <= i < |s.procs| ==> AtEntry(s.procs[i])
  }

  lemma InitialInv(s: State)
    requires Initial(s)
    ensures Inv(s)
  {
    NoneCounted(s.procs, p => One(HoldsAdmission(p)));
    NoneCounted(s.procs, p => One(Transitioning(p)));
    NoneCounted(s.procs, p => One(HoldsSlot(p)));
  }

  lemma {:induction false} NoneCounted(procs: seq<Proc>, f: Proc -> nat)
    requires forall i :: 0 <= i < |procs| ==> f(procs[i]) == 0
    ensures Total(procs, f) == 0
  {
    if procs != [] {
      NoneCounted(procs[..|procs| - 1], f);
    }
  }

  lemma {:induction false} RunInv(s: State, moves: seq<Move>)
    requires Initial(s)
    ensures Inv(Run(s, moves))
  {
    hide Inv, Initial, Next;
    if moves == [] {
      InitialInv(s);
    } else {
      var n := |moves| - 1;
      RunInv(s, moves[..n]);
      NextInv(Run(s, moves[..n]), moves[n].caller, moves[n].choice);
    }
  }

  // ------------------------------------------------------------------ safety

  /** The count is the number of callers between admit and release; at most one caller is in a
      transition, and exactly then the flag is set; no more streams run than the semaphore allows. */
  lemma CountsAreExact(s0: State, moves: seq<Move>)
    requires Initial(s0)
    ensures var s := Run(s0, moves);
      && s.active == Admissions(s.procs)
      && (s.refreshing <==> exists i :: 0 <= i < |s.procs| && Transitioning(s.procs[i]))
      && (forall i, j :: 0 <= i < |s.procs| && 0 <= j < |s.procs| && Transitioning(s.procs[i]) && Transitioning(s.procs[j]) ==> i == j)
      && Slots(s.procs) <= s.capacity
  {
    hide Run, Initial, ProcOk, SleepOk, ClientsOk, Admissions, Slots, Transitioning;
    RunInv(s0, moves);
    var s := Run(s0, moves);
    if s.refreshing {
      var i := TotalWitness(s.procs, p => One(Transitioning(p)));
      assert Transitioning(s.procs[i]);
    }
    forall i, j | 0 <= i < |s.procs| && 0 <= j < |s.procs| && Transitioning(s.procs[i]) && Transitioning(s.procs[j])
      ensures i == j && s.refreshing
    {
      OneTransition(s, i, j);
    }
  }

  /** Whoever is between admit and release works on the current client, under the current
      generation number, and that client has never been stopped. */
  lemma AdmittedClientIsLive(s0: State, moves: seq<Move>, i: nat)
    requires Initial(s0) && i < |Run(s0, moves).procs| && HoldsAdmission(Run(s0, moves).procs[i])
    ensures var s := Run(s0, moves);
      && s.client == Some(s.procs[i].pc.client) && s.generation == s.procs[i].pc.gen
      && s.generation in s.issued && s.issued[s.generation] == s.procs[i].pc.client
      && s.procs[i].pc.client !in s.stops
  {
    hide Run, Initial;
    RunInv(s0, moves);
    var s := Run(s0, moves);
    assert ProcOk(s, i);
    if s.client.value in s.stops {
      var j :| 0 <= j < |s.procs| && BeingReplaced(s.procs[j]);
      assert ProcOk(s, j);
      NobodyAdmitted(s, i);
    }
  }

  /** A step that stops a client stops one that was never stopped before, while nobody at all holds
      an admission. */
  lemma StopsOnlyIdleClients(s: State, i: nat, choice: bool)
    requires Inv(s) && Next(s, i, choice).stops != s.stops
    ensures exists c :: Next(s, i, choice).stops == s.stops + [c] && c !in s.stops
    ensures s.active == 0 && forall j :: 0 <= j < |s.procs| ==> !HoldsAdmission(s.procs[j])
  {
    hide Slots, Admissions, Transitions;
    assert ProcOk(s, i);
    forall j | 0 <= j < |s.procs| ensures s.active == 0 ==> !HoldsAdmission(s.procs[j]) {
      if s.active == 0 { NobodyAdmitted(s, j); }
    }
    match s.procs[i].pc {
      case StopCall(c) => assert Next(s, i, choice).stops == s.stops + [c];
      case TransStop =>
        ClientNotStopped(s, i);
        assert Next(s, i, choice).stops == s.stops + [s.client.value];
      case _ =>
    }
  }

  /** Over a whole run no client is stopped twice. */
  lemma EachClientStoppedOnce(s0: State, moves: seq<Move>, k: nat, l: nat)
    requires Initial(s0) && k < l < |Run(s0, moves).stops|
    ensures Run(s0, moves).stops[k] != Run(s0, moves).stops[l]
  {
    hide Run, Initial, ProcOk, SleepOk, Admissions, Transitions, Slots;
    RunInv(s0, moves);
  }

  lemma IssuedKept(s: State, i: nat, choice: bool)
    requires Inv(s)
    ensures forall g :: g in s.issued ==> g in Next(s, i, choice).issued && Next(s, i, choice).issued[g] == s.issued[g]
  {
    assert forall g :: g in s.issued ==> g <= s.generation by {
      hide Slots, Admissions, Transitions, ProcOk, SleepOk;
      assert ClientsOk(s);
    }
    hide Inv, WakeAll, Slots, TryStop, RecheckStop, TakeClient, TryTransition, DrainTransition;
    StopsIssueNothing(s, i);
  }

  /** Replacing a client issues no number. */
  lemma StopsIssueNothing(s: State, i: nat)
    ensures i < |s.procs| ==> forall gen: nat ::
      TryStop(s, i, gen).issued == s.issued && RecheckStop(s, i, gen).issued == s.issued && TakeClient(s, i, gen).issued == s.issued
    ensures i < |s.procs| ==> TryTransition(s, i).issued == s.issued && DrainTransition(s, i).issued == s.issued
  {
  }

  lemma {:induction false} IssuedKeptByRuns(s: State, moves: seq<Move>)
    requires Inv(s)
    ensures Inv(Run(s, moves))
    ensures forall g :: g in s.issued ==> g in Run(s, moves).issued && Run(s, moves).issued[g] == s.issued[g]
  {
    hide Inv, Next;
    if moves != [] {
      var n := |moves| - 1;
      var before := Run(s, moves[..n]);
      IssuedKeptByRuns(s, moves[..n]);
      NextInv(before, moves[n].caller, moves[n].choice);
      IssuedKept(before, moves[n].caller, moves[n].choice);
    }
  }

  lemma UsingIssued(s: State, i: nat)
    requires Inv(s) && i < |s.procs| && s.procs[i].pc.Using?
    ensures s.procs[i].pc.gen in s.issued && s.issued[s.procs[i].pc.gen] == s.procs[i].pc.client
  {
    hide Slots, Admissions, Transitions;
    assert ProcOk(s, i);
  }

  /** Equal generation numbers mean the same client, however much happened in between. */
  lemma SameGenerationSameClient(s: State, moves: seq<Move>, i: nat, j: nat)
    requires Inv(s) && i < |s.procs| && j < |Run(s, moves).procs|
    requires s.procs[i].pc.Using? && Run(s, moves).procs[j].pc.Using?
    requires s.procs[i].pc.gen == Run(s, moves).procs[j].pc.gen
    ensures s.procs[i].pc.client == Run(s, moves).procs[j].pc.client
  {
    hide Inv, Run;
    IssuedKeptByRuns(s, moves);
    UsingIssued(s, i);
    UsingIssued(Run(s, moves), j);
  }

  predicate Replacing(pc: Pc, gen: nat) {
    pc == StopEntry(gen) || (pc.StopFlag? && pc.gen == gen) || (pc.StopDrain? && pc.gen == gen)
  }

  /** A failing stream takes down only the very client it used: if another caller has replaced it in
      the meantime, nothing is stopped. */
  lemma ReplacesOnlyTheObservedClient(s: State, i: nat, choice: bool, gen: nat)
    requires Inv(s) && i < |s.procs| && Replacing(s.procs[i].pc, gen)
    ensures var after := Next(s, i, choice);
      && |after.procs| == |s.procs|
      && (after.client != s.client ==> after.procs[i].pc.StopCall? && gen in s.issued && after.procs[i].pc.client == s.issued[gen])
      && (s.generation != gen ==> after.client == s.client)
  {
    hide Slots, Admissions, Transitions;
    assert ProcOk(s, i);
  }

  // ------------------------------------------------------------------ liveness

  predicate First(p: Proc) {
    p.role == Stream && !p.retried
  }

  /** How many more places a caller may pass through. */
  function Remaining(p: Proc): nat {
    match p.pc
    case SlotWait => if First(p) then 15 else 5
    case Admitting(_) => if First(p) then 14 else 4
    case Starting => if First(p) then 13 else 3
    case Using(_, _) => if First(p) then 12 else 2
    case StopEntry(_) => 11
    case StopFlag(_, _) => 10
    case StopDrain(_, _) => 9
    case StopCall(_) => 8
    case StopClear => 7
    case Leaving(again) => if again then 6 else 1
    case TransFlag(_) => 9
    case TransDrain(_) => 8
    case TransStop => 7
    case TransStart => 6
    case TransEnd(_) => 5
    case Done => 0
  }

  function Work(procs: seq<Proc>): nat {
    Total(procs, Remaining)
  }

  function Restless(procs: seq<Proc>): nat {
    Total(procs, p => One(Awake(p)))
  }

  /** Work first, then waiters that still have to look whether they may go on. */
  function Measure(s: State): nat {
    Work(s.procs) * (|s.procs| + 1) + Restless(s.procs)
  }

  /** Caller i became p: it moved on (and perhaps woke everybody), or went back to sleep. */
  predicate MovedOn(s: State, t: State, i: nat, p: Proc)
    requires i < |s.procs|
  {
    || (Remaining(p) < Remaining(s.procs[i]) && (t.procs == s.procs[i := p] || t.procs == WakeAll(s.procs[i := p])))
    || (t.procs == s.procs[i := p] && Remaining(p) == Remaining(s.procs[i]) && Awake(s.procs[i]) && !Awake(p))
  }

  lemma WorkAwake(procs: seq<Proc>)
    ensures Work(WakeAll(procs)) == Work(procs)
  {
    forall j | 0 <= j < |procs| ensures Remaining(WakeAll(procs)[j]) == Remaining(procs[j]) {
      assert WakeAll(procs)[j] == Wake(procs[j]);
    }
    TotalSame(procs, WakeAll(procs), Remaining);
  }

  lemma RestlessBound(procs: seq<Proc>)
    ensures Restless(procs) <= |procs|
  {
    TotalAtMost(procs, p => One(Awake(p)));
  }

  lemma WorkUpdate(procs: seq<Proc>, i: nat, p: Proc)
    requires i < |procs|
    ensures Work(procs[i := p]) + Remaining(procs[i]) == Work(procs) + Remaining(p)
    ensures Restless(procs[i := p]) + One(Awake(procs[i])) == Restless(procs) + One(Awake(p))
  {
    hide Remaining, Awake;
    TotalUpdate(procs, i, p, Remaining);
    TotalUpdate(procs, i, p, p => One(Awake(p)));
  }

  lemma LessWork(w: nat, r: nat, w': nat, r': nat, n: nat)
    requires r' <= n && w' < w
    ensures w' * (n + 1) + r' < w * (n + 1) + r
  {
    assert w * (n + 1) >= (w' + 1) * (n + 1) == w' * (n + 1) + n + 1;
  }

  lemma MovedMeasure(s: State, t: State, i: nat, p: Proc)
    requires i < |s.procs| && MovedOn(s, t, i, p)
    ensures |t.procs| == |s.procs| && Measure(t) < Measure(s)
  {
    var n, moved := |s.procs|, s.procs[i := p];
    WorkUpdate(s.procs, i, p);
    RestlessBound(t.procs);
    WorkAwake(moved);
    hide Remaining, Awake, Work, Restless;
    assert |t.procs| == n;
    hide WakeAll;
    if Remaining(p) < Remaining(s.procs[i]) {
      LessWork(Work(s.procs), Restless(s.procs), Work(t.procs), Restless(t.procs), n);
    }
  }

  lemma Moves(s: State, i: nat, choice: bool) returns (p: Proc)
    requires Inv(s) && i < |s.procs| && Next(s, i, choice) != s
    ensures MovedOn(s, Next(s, i, choice), i, p)
  {
    p := After(s, i, choice);
    var pc := s.procs[i].pc;
    if pc.StopEntry? || pc.StopFlag? || pc.StopDrain? || pc.StopCall? || pc.StopClear? {
      MovesInStop(s, i, choice);
    } else if pc.TransFlag? || pc.TransDrain? || pc.TransStop? || pc.TransStart? || pc.TransEnd? {
      MovesInTransition(s, i, choice);
    } else {
      MovesInAdmission(s, i, choice);
    }
  }

  lemma MovesInStop(s: State, i: nat, choice: bool)
    requires Inv(s) && i < |s.procs| && Next(s, i, choice) != s
    requires s.procs[i].pc.StopEntry? || s.procs[i].pc.StopFlag? || s.procs[i].pc.StopDrain? || s.procs[i].pc.StopCall? || s.procs[i].pc.StopClear?
    ensures MovedOn(s, Next(s, i, choice), i, After(s, i, choice))
  {
    hide Slots, Admissions, Transitions, ClientsOk, WakeAll;
    assert ProcOk(s, i);
  }

  lemma MovesInTransition(s: State, i: nat, choice: bool)
    requires Inv(s) && i < |s.procs| && Next(s, i, choice) != s
    requires s.procs[i].pc.TransFlag? || s.procs[i].pc.TransDrain? || s.procs[i].pc.TransStop? || s.procs[i].pc.TransStart? || s.procs[i].pc.TransEnd?
    ensures MovedOn(s, Next(s, i, choice), i, After(s, i, choice))
  {
    hide Slots, Admissions, Transitions, ClientsOk, WakeAll;
    assert ProcOk(s, i);
  }

  lemma MovesInAdmission(s: State, i: nat, choice: bool)
    requires Inv(s) && i < |s.procs| && Next(s, i, choice) != s
    requires s.procs[i].pc.SlotWait? || s.procs[i].pc.Admitting? || s.procs[i].pc.Starting? || s.procs[i].pc.Using? || s.procs[i].pc.Leaving?
          || s.procs[i].pc.Done?
    ensures MovedOn(s, Next(s, i, choice), i, After(s, i, choice))
  {
    hide Slots, Admissions, Transitions, ClientsOk, WakeAll;
    assert ProcOk(s, i);
  }

  /** Caller i after its step, before anybody is woken. */
  function After(s: State, i: nat, choice: bool): Proc
    requires i < |s.procs|
  {
    var p := s.procs[i];
    match p.pc
    case Using(_, gen) =>
      p.(pc := if p.role != Stream then Done else if choice && !p.retried then StopEntry(gen) else Leaving(false))
    case StopClear => p.(pc := Leaving(true))
    case TransEnd(installed) => p.(pc := if p.role == Refresh && installed.Some? then Admitting(true) else Done)
    case _ => if i < |Next(s, i, choice).procs| then Next(s, i, choice).procs[i] else p
  }

  /** Every step that does something uses up measure: callers cannot keep each other busy for ever. */
  lemma StepsUseMeasure(s: State, i: nat, choice: bool)
    requires Inv(s) && Next(s, i, choice) != s
    ensures i < |s.procs| && |Next(s, i, choice).procs| == |s.procs|
    ensures Measure(Next(s, i, choice)) < Measure(s)
  {
    hide Inv, Measure, MovedOn, Locked;
    var p := Moves(s, i, choice);
    MovedMeasure(s, Next(s, i, choice), i, p);
  }

  predicate AllDone(s: State) {
    forall i :: 0 <= i < |s.procs| ==> s.procs[i].pc.Done?
  }

  /** Deadlock freedom: while any caller is unfinished, some caller can take a step. */
  lemma SomebodyCanMove(s: State) returns (i: nat)
    requires Inv(s) && !AllDone(s) && s.capacity > 0
    ensures i < |s.procs| && Next(s, i, true) != s
  {
    hide Slots, Admissions, Transitions, ClientsOk;
    if s.starter.Some? {
      i := s.starter.value;
      assert ProcOk(s, i);
      assert !Next(s, i, true).procs[i].pc.Starting?;
    } else if s.active > 0 {
      i := Admitted(s);
      ReleaseMoves(s, i);
    } else if s.refreshing {
      i := InTransition(s);
      TransitionMoves(s, i);
    } else if j :| 0 <= j < |s.procs| && !s.procs[j].pc.SlotWait? && !s.procs[j].pc.Done? {
      i := j;
      FreeMoves(s, i);
    } else {
      var j :| 0 <= j < |s.procs| && !s.procs[j].pc.Done?;
      i := j;
      SlotIsFree(s);
      assert Next(s, i, true).procs[i].pc.Admitting?;
    }
  }

  lemma Admitted(s: State) returns (i: nat)
    requires Consistent(s) && s.active > 0
    ensures i < |s.procs| && s.procs[i].pc.Using?
  {
    i := TotalWitness(s.procs, p => One(HoldsAdmission(p)));
  }

  lemma InTransition(s: State) returns (i: nat)
    requires Consistent(s) && s.refreshing
    ensures i < |s.procs| && Transitioning(s.procs[i])
  {
    i := TotalWitness(s.procs, p => One(Transitioning(p)));
  }

  lemma ReleaseMoves(s: State, i: nat)
    requires i < |s.procs| && s.procs[i].pc.Using? && s.starter.None?
    ensures Next(s, i, true) != s
  {
    assert !Next(s, i, true).procs[i].pc.Using?;
  }

  /** With no admission left, the caller in transition is never asleep. */
  lemma TransitionMoves(s: State, i: nat)
    requires Inv(s) && i < |s.procs| && Transitioning(s.procs[i]) && s.starter.None? && s.active == 0
    ensures Next(s, i, true) != s
  {
    hide Slots, Admissions, Transitions, ClientsOk;
    assert ProcOk(s, i) && SleepOk(s, i);
    assert Next(s, i, true).procs[i].pc != s.procs[i].pc;
  }

  /** With no transition and no admission, every waiter is awake. */
  lemma FreeMoves(s: State, i: nat)
    requires Inv(s) && i < |s.procs| && s.starter.None? && s.active == 0 && !s.refreshing
    requires !s.procs[i].pc.SlotWait? && !s.procs[i].pc.Done?
    ensures Next(s, i, true) != s
  {
    hide Slots, Admissions, Transitions, ClientsOk;
    assert ProcOk(s, i) && SleepOk(s, i);
    assert Next(s, i, true).procs[i].pc != s.procs[i].pc;
  }

  lemma SlotIsFree(s: State)
    requires s.capacity > 0 && forall j :: 0 <= j < |s.procs| ==> s.procs[j].pc.SlotWait? || s.procs[j].pc.Done?
    ensures Slots(s.procs) < s.capacity
  {
    NoneCounted(s.procs, p => One(HoldsSlot(p)));
  }

  /** No lost wakeup, no deadlock, no livelock: from every state of every run all callers can be
      brought to their end, and no schedule whatever takes more than `Measure(s)` steps that do
      something. */
  lemma EverybodyFinishes(s: State) returns (moves: seq<Move>)
    requires Inv(s) && s.capacity > 0
    ensures AllDone(Run(s, moves))
    decreases Measure(s)
  {
    hide Inv, Next, Measure, AllDone;
    if AllDone(s) {
      moves := [];
    } else {
      var i := SomebodyCanMove(s);
      StepsUseMeasure(s, i, true);
      NextInv(s, i, true);
      var t := Next(s, i, true);
      CapacityKept(s, i, true);
      var rest := EverybodyFinishes(t);
      moves := [Move(i, true)] + rest;
      RunAfter(s, Move(i, true), rest);
    }
  }

  lemma CapacityKept(s: State, i: nat, choice: bool)
    ensures Next(s, i, choice).capacity == s.capacity
  {
    hide WakeAll, Slots;
  }

  lemma {:induction false} RunAfter(s: State, first: Move, rest: seq<Move>)
    ensures Run(s, [first] + rest) == Run(Next(s, first.caller, first.choice), rest)
  {
    hide Next;
    if rest == [] {
      assert [first] + rest == [first] && [first][..0] == [];
    } else {
      var n := |rest| - 1;
      RunAfter(s, first, rest[..n]);
      assert ([first] + rest)[..n + 1] == [first] + rest[..n];
    }
  }

  /** Every move of the run does something. */
  ghost predicate Effective(s: State, moves: seq<Move>) {
    forall n :: 0 <= n < |moves| ==> Run(s, moves[..n + 1]) != Run(s, moves[..n])
  }

  lemma {:induction false} EffectiveRunsAreShort(s: State, moves: seq<Move>)
    requires Inv(s) && Effective(s, moves)
    ensures Inv(Run(s, moves)) && |moves| + Measure(Run(s, moves)) <= Measure(s)
  {
    hide Inv, Next, Measure;
    if moves != [] {
      var n := |moves| - 1;
      forall k | 0 <= k < n ensures Run(s, moves[..n][..k + 1]) != Run(s, moves[..n][..k]) {
        assert moves[..n][..k + 1] == moves[..k + 1] && moves[..n][..k] == moves[..k];
      }
      EffectiveRunsAreShort(s, moves[..n]);
      assert moves[..n + 1] == moves;
      var before := Run(s, moves[..n]);
      StepsUseMeasure(before, moves[n].caller, moves[n].choice);
      NextInv(before, moves[n].caller, moves[n].choice);
    }
  }
}
