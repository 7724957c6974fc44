/** The lifecycle of the shared Copilot client: a condition-variable protocol over one client slot,
    an admission count, a transition flag and a generation number, run by any number of callers.

    A step is what a caller does between two awaits. The lifecycle lock is held across an await
    only while a client is being started inside an admission; every other critical section is one
    step, possible when nobody holds the lock. A waiter on the condition is asleep until the next
    `notify_all`, then rechecks its predicate. */
module ClientLifecycle {
  import opened Tables
  import opened Totals

  datatype Role = Stream | Reader | Refresh | Shutdown

  datatype Pc =
    | SlotWait
    | Admitting(awake: bool)
    | Starting
    | Using(client: int, gen: nat)
    | StopEntry(gen: nat)
    | StopFlag(gen: nat, awake: bool)
    | StopDrain(gen: nat, awake: bool)
    | StopCall(client: int)
    | StopClear
    | Leaving(again: bool)
    | TransFlag(awake: bool)
    | TransDrain(awake: bool)
    | TransStop
    | TransStart
    | TransEnd(installed: Option<int>)
    | Done

  /** `retried`: this is the stream's second attempt. */
  datatype Proc = Proc(role: Role, retried: bool, pc: Pc)

  /** `issued` and `stops` are history: the client each generation number was given to, and every
      client ever stopped, in order. `nextClient` is the identity the next started client gets. */
  datatype State = State(
    client: Option<int>, generation: nat, active: nat, refreshing: bool, starter: Option<nat>,
    procs: seq<Proc>, capacity: nat,
    nextClient: int, issued: map<nat, int>, stops: seq<int>)

  // ------------------------------------------------------------------ who is where

  predicate HoldsAdmission(p: Proc) {
    p.pc.Using?
  }

  /** The caller that set the transition flag and has not cleared it yet. */
  predicate Transitioning(p: Proc) {
    p.pc.StopDrain? || p.pc.StopCall? || p.pc.StopClear? || p.pc.TransDrain? || p.pc.TransStop? || p.pc.TransStart? || p.pc.TransEnd?
  }

  /** Inside `async with _llm_semaphore`. */
  predicate HoldsSlot(p: Proc) {
    p.role == Stream && !p.pc.SlotWait? && !p.pc.Done?
  }

  predicate Asleep(p: Proc) {
    (p.pc.Admitting? || p.pc.StopFlag? || p.pc.StopDrain? || p.pc.TransFlag? || p.pc.TransDrain?) && !p.pc.awake
  }

  predicate Awake(p: Proc) {
    (p.pc.Admitting? || p.pc.StopFlag? || p.pc.StopDrain? || p.pc.TransFlag? || p.pc.TransDrain?) && p.pc.awake
  }

  function One(b: bool): nat {
    if b then 1 else 0
  }

  function Admissions(procs: seq<Proc>): nat {
    Total(procs, p => One(HoldsAdmission(p)))
  }

  function Transitions(procs: seq<Proc>): nat {
    Total(procs, p => One(Transitioning(p)))
  }

  function Slots(procs: seq<Proc>): nat {
    Total(procs, p => One(HoldsSlot(p)))
  }

  // ------------------------------------------------------------------ steps

  function Wake(p: Proc): Proc {
    if Asleep(p) then p.(pc := p.pc.(awake := true)) else p
  }

  /** `notify_all`. */
  function WakeAll(procs: seq<Proc>): seq<Proc> {
    seq(|procs|, i requires 0 <= i < |procs| => Wake(procs[i]))
  }

  function At(s: State, i: nat, pc: Pc): State
    requires i < |s.procs|
  {
    s.(procs := s.procs[i := s.procs[i].(pc := pc)])
  }

  function Notified(s: State): State {
    s.(procs := WakeAll(s.procs))
  }

  /** The last statements of an admission, still under the lock. */
  function Admit(s: State, i: nat): State
    requires i < |s.procs| && s.client.Some?
  {
    At(s, i, Using(s.client.value, s.generation)).(active := s.active + 1)
  }

  function TryAdmit(s: State, i: nat): State
    requires i < |s.procs|
  {
    if s.refreshing then At(s, i, Admitting(false))
    else if s.client.None? then At(s, i, Starting).(starter := Some(i))
    else Admit(s, i)
  }

  /** `client.start()` returns, or raises. */
  function FinishStart(s: State, i: nat, ok: bool): State
    requires i < |s.procs|
  {
    var free := s.(starter := None);
    if ok then
      Admit(free.(client := Some(s.nextClient), nextClient := s.nextClient + 1, generation := s.generation + 1,
                  issued := s.issued[s.generation + 1 := s.nextClient]), i)
    else if s.procs[i].role == Stream then At(free, i, Leaving(false))
    else At(free, i, Done)
  }

  /** A caller gives its admission back: it is through, or (a stream's first attempt, before any
      token) its transport failed and it goes on to replace the client it used. */
  function ReleaseAdmission(s: State, i: nat, transportFailed: bool): State
    requires i < |s.procs| && s.procs[i].pc.Using?
  {
    var p := s.procs[i];
    var next :=
      if p.role != Stream then Done
      else if transportFailed && !p.retried then StopEntry(p.pc.gen)
      else Leaving(false);
    Notified(At(s, i, next).(active := if s.active > 0 then s.active - 1 else 0))
  }

  predicate Stale(s: State, gen: nat) {
    s.client.None? || s.generation != gen
  }

  /** Take the client out of its place, to stop it outside the lock. */
  function TakeClient(s: State, i: nat, gen: nat): State
    requires i < |s.procs|
  {
    if s.active > 0 then At(s, i, StopDrain(gen, false))
    else if s.client.Some? then At(s, i, StopCall(s.client.value)).(client := None)
    else At(s, i, StopClear)
  }

  function TryStop(s: State, i: nat, gen: nat): State
    requires i < |s.procs|
  {
    if Stale(s, gen) then At(s, i, Leaving(true))
    else if s.refreshing then At(s, i, StopFlag(gen, false))
    else TakeClient(s.(refreshing := true), i, gen)
  }

  function RecheckStop(s: State, i: nat, gen: nat): State
    requires i < |s.procs|
  {
    if s.refreshing then At(s, i, StopFlag(gen, false))
    else if Stale(s, gen) then At(s, i, Leaving(true))
    else TakeClient(s.(refreshing := true), i, gen)
  }

  function TryTransition(s: State, i: nat): State
    requires i < |s.procs|
  {
    if s.refreshing then At(s, i, TransFlag(false))
    else DrainTransition(s.(refreshing := true), i)
  }

  function DrainTransition(s: State, i: nat): State
    requires i < |s.procs|
  {
    if s.active > 0 then At(s, i, TransDrain(false)) else At(s, i, TransStop)
  }

  /** The transitioning caller stops the client it found; a refresh then starts another. */
  function StopOld(s: State, i: nat): State
    requires i < |s.procs|
  {
    var next := if s.procs[i].role == Refresh then TransStart else TransEnd(None);
    At(s, i, next).(stops := if s.client.Some? then s.stops + [s.client.value] else s.stops)
  }

  function StartNew(s: State, i: nat, ok: bool): State
    requires i < |s.procs|
  {
    if ok then At(s, i, TransEnd(Some(s.nextClient))).(nextClient := s.nextClient + 1)
    else At(s, i, TransEnd(None))
  }

  /** Install the new client or none, clear the flag. A refresh goes on to list the models. */
  function EndTransition(s: State, i: nat, installed: Option<int>): State
    requires i < |s.procs|
  {
    var next := if s.procs[i].role == Refresh && installed.Some? then Admitting(true) else Done;
    var moved := At(s, i, next);
    Notified(moved.(client := installed, refreshing := false,
                    generation := if installed.Some? then s.generation + 1 else s.generation,
                    issued := if installed.Some? then s.issued[s.generation + 1 := installed.value] else s.issued))
  }

  /** Leave the semaphore: finished, or once more from the start. */
  function Leave(s: State, i: nat, again: bool): State
    requires i < |s.procs|
  {
    s.(procs := s.procs[i := s.procs[i].(retried := s.procs[i].retried || again, pc := if again then SlotWait else Done)])
  }

  /** One step of caller i; `choice` is what the outside world decides at that point (a start that
      works, a transport that fails). A step that is not possible now changes nothing. */
  function Next(s: State, i: nat, choice: bool): State {
    if i >= |s.procs| then s
    else
      var p := s.procs[i];
      match p.pc
      case SlotWait => if Slots(s.procs) < s.capacity then At(s, i, Admitting(true)) else s
      case Starting => FinishStart(s, i, choice)
      case StopCall(c) => At(s, i, StopClear).(stops := s.stops + [c])
      case Leaving(again) => Leave(s, i, again)
      case TransStop => StopOld(s, i)
      case TransStart => StartNew(s, i, choice)
      case Done => s
      case _ => if s.starter.Some? then s else Locked(s, i, choice)
  }

  /** Steps that need the lifecycle lock. */
  function Locked(s: State, i: nat, choice: bool): State
    requires i < |s.procs|
  {
    match s.procs[i].pc
    case Admitting(awake) => if awake then TryAdmit(s, i) else s
    case Using(_, _) => ReleaseAdmission(s, i, choice)
    case StopEntry(gen) => TryStop(s, i, gen)
    case StopFlag(gen, awake) => if awake then RecheckStop(s, i, gen) else s
    case StopDrain(gen, awake) => if awake then TakeClient(s, i, gen) else s
    case StopClear => Notified(At(s, i, Leaving(true)).(refreshing := false))
    case TransFlag(awake) => if awake then TryTransition(s, i) else s
    case TransDrain(awake) => if awake then DrainTransition(s, i) else s
    case TransEnd(installed) => EndTransition(s, i, installed)
    case _ => s
  }

  datatype Move = Move(caller: nat, choice: bool)

  function Run(s: State, moves: seq<Move>): State {
    if moves == [] then s
    else Next(Run(s, moves[..|moves| - 1]), moves[|moves| - 1].caller, moves[|moves| - 1].choice)
  }

  // ------------------------------------------------------------------ the invariant

  predicate StreamOnly(pc: Pc) {
    pc.SlotWait? || pc.StopEntry? || pc.StopFlag? || pc.StopDrain? || pc.StopCall? || pc.StopClear? || pc.Leaving?
  }

  /** What caller i knows about the shared state at the place it is in. */
  ghost predicate ProcOk(s: State, i: nat)
    requires i < |s.procs|
  {
    var p := s.procs[i];
    && (p.pc.Using? ==> s.client == Some(p.pc.client) && s.generation == p.pc.gen)
    && (p.pc.Starting? <==> s.starter == Some(i))
    && (p.pc.StopDrain? ==> s.client.Some? && s.generation == p.pc.gen)
    && (p.pc.StopCall? ==> s.client.None? && p.pc.client < s.nextClient && p.pc.client !in s.stops)
    && (p.pc.StopClear? ==> s.client.None?)
    && (p.pc.StopCall? || p.pc.StopClear? || p.pc.TransStop? || p.pc.TransStart? || p.pc.TransEnd? ==> s.active == 0)
    && (p.pc.TransEnd? && p.pc.installed.Some? ==>
          p.pc.installed.value < s.nextClient && p.pc.installed.value !in s.stops && s.client != p.pc.installed)
    && (StreamOnly(p.pc) ==> p.role == Stream)
    && (p.pc.TransFlag? || p.pc.TransDrain? || p.pc.TransStop? || p.pc.TransEnd? ==> p.role == Refresh || p.role == Shutdown)
    && (p.pc.TransStart? ==> p.role == Refresh)
    && (p.pc.StopEntry? || p.pc.StopFlag? || p.pc.StopDrain? || p.pc.StopCall? || p.pc.StopClear? || p.pc == Leaving(true) ==> !p.retried)
  }

  /** A sleeping waiter's predicate is false, so somebody still has to make it true and notify. */
  ghost predicate SleepOk(s: State, i: nat)
    requires i < |s.procs|
  {
    var p := s.procs[i];
    && (Asleep(p) && (p.pc.Admitting? || p.pc.StopFlag? || p.pc.TransFlag?) ==> s.refreshing)
    && (Asleep(p) && (p.pc.StopDrain? || p.pc.TransDrain?) ==> s.active > 0)
  }

  /** The current client has been stopped only by a transition that is about to replace it. */
  predicate BeingReplaced(p: Proc) {
    p.pc.TransStart? || p.pc.TransEnd?
  }

  ghost predicate ClientsOk(s: State) {
    && (s.client.Some? ==> s.client.value < s.nextClient && s.generation in s.issued && s.issued[s.generation] == s.client.value)
    && (s.client.Some? && s.client.value in s.stops ==> exists i :: 0 <= i < |s.procs| && BeingReplaced(s.procs[i]))
    && (forall k :: 0 <= k < |s.stops| ==> s.stops[k] < s.nextClient)
    && (forall k, l :: 0 <= k < l < |s.stops| ==> s.stops[k] != s.stops[l])
    && (forall g :: g in s.issued ==> g <= s.generation)
  }

  /** All but what sleepers rely on, which a step may break until it notifies. */
  ghost predicate Consistent(s: State) {
    && s.active == Admissions(s.procs)
    && Transitions(s.procs) == One(s.refreshing)
    && Slots(s.procs) <= s.capacity
    && (s.starter.Some? ==> s.starter.value < |s.procs| && s.client.None? && !s.refreshing)
    && (forall i :: 0 <= i < |s.procs| ==> ProcOk(s, i))
    && ClientsOk(s)
  }

  ghost predicate Inv(s: State) {
    Consistent(s) && forall i :: 0 <= i < |s.procs| ==> SleepOk(s, i)
  }

  // ------------------------------------------------------------------ counting

  /** The counts after caller i changed to p. */
  lemma CountsAfter(procs: seq<Proc>, i: nat, p: Proc)
    requires i < |procs|
    ensures Admissions(procs[i := p]) + One(HoldsAdmission(procs[i])) == Admissions(procs) + One(HoldsAdmission(p))
    ensures Transitions(procs[i := p]) + One(Transitioning(procs[i])) == Transitions(procs) + One(Transitioning(p))
    ensures Slots(procs[i := p]) + One(HoldsSlot(procs[i])) == Slots(procs) + One(HoldsSlot(p))
  {
    TotalUpdate(procs, i, p, p => One(HoldsAdmission(p)));
    TotalUpdate(procs, i, p, p => One(Transitioning(p)));
    TotalUpdate(procs, i, p, p => One(HoldsSlot(p)));
  }

  lemma CountsAwake(procs: seq<Proc>)
    ensures Admissions(WakeAll(procs)) == Admissions(procs)
    ensures Transitions(WakeAll(procs)) == Transitions(procs)
    ensures Slots(WakeAll(procs)) == Slots(procs)
  {
    TotalSame(procs, WakeAll(procs), p => One(HoldsAdmission(p)));
    TotalSame(procs, WakeAll(procs), p => One(Transitioning(p)));
    TotalSame(procs, WakeAll(procs), p => One(HoldsSlot(p)));
  }

  lemma AdmittedCounts(procs: seq<Proc>, i: nat)
    requires i < |procs| && HoldsAdmission(procs[i])
    ensures Admissions(procs) > 0
  {
    TotalAtLeast(procs, i, p => One(HoldsAdmission(p)));
  }

  lemma TransitionCounts(procs: seq<Proc>, i: nat)
    requires i < |procs| && Transitioning(procs[i])
    ensures Transitions(procs) > 0
  {
    TotalAtLeast(procs, i, p => One(Transitioning(p)));
  }

  /** At most one caller is in a transition, and exactly then the flag is set. */
  lemma OneTransition(s: State, i: nat, j: nat)
    requires Transitions(s.procs) == One(s.refreshing)
    requires i < |s.procs| && j < |s.procs| && Transitioning(s.procs[i]) && Transitioning(s.procs[j])
    ensures i == j && s.refreshing
  {
    TransitionCounts(s.procs, i);
    if i < j {
      TotalAtLeastTwo(s.procs, i, j, p => One(Transitioning(p)));
    } else if j < i {
      TotalAtLeastTwo(s.procs, j, i, p => One(Transitioning(p)));
    }
  }

  /** What exclusion means for two callers at once. */
  lemma Exclusion(s: State, i: nat, j: nat)
    requires Inv(s) && i < |s.procs| && j < |s.procs|
    ensures Transitioning(s.procs[i]) && Transitioning(s.procs[j]) ==> i == j
    ensures Transitioning(s.procs[i]) ==> s.refreshing
    ensures HoldsAdmission(s.procs[j]) ==> s.active > 0 && s.client.Some?
    ensures s.procs[i].pc.Starting? && s.procs[j].pc.Starting? ==> i == j
    ensures s.procs[i].pc.Starting? ==> !HoldsAdmission(s.procs[j]) && !Transitioning(s.procs[j])
  {
    hide ClientsOk;
    assert ProcOk(s, i) && ProcOk(s, j);
    if Transitioning(s.procs[i]) { OneTransition(s, i, i); }
    if Transitioning(s.procs[j]) { OneTransition(s, j, j); }
    if Transitioning(s.procs[i]) && Transitioning(s.procs[j]) { OneTransition(s, i, j); }
    if HoldsAdmission(s.procs[j]) { AdmittedCounts(s.procs, j); }
  }

  // ------------------------------------------------------------------ every step keeps the invariant

  /** A step that moves caller i to p and may change the shared fields, if it keeps the counts and
      every caller's own facts, keeps the invariant. */
  lemma Reestablish(s: State, t: State, i: nat, p: Proc)
    requires Consistent(s) && i < |s.procs| && t.procs == s.procs[i := p] && t.capacity == s.capacity
    requires t.active + One(HoldsAdmission(s.procs[i])) == s.active + One(HoldsAdmission(p))
    requires One(t.refreshing) + One(Transitioning(s.procs[i])) == One(s.refreshing) + One(Transitioning(p))
    requires HoldsSlot(p) && !HoldsSlot(s.procs[i]) ==> Slots(s.procs) < s.capacity
    requires t.starter.Some? ==> t.starter.value < |t.procs| && t.client.None? && !t.refreshing
    requires forall j :: 0 <= j < |t.procs| ==> ProcOk(t, j)
    requires ClientsOk(t)
    ensures Consistent(t)
  {
    hide ProcOk, ClientsOk, Admissions, Transitions, Slots, HoldsAdmission, Transitioning, HoldsSlot;
    CountsAfter(s.procs, i, p);
  }

  /** Waking everybody keeps the invariant: the facts of a waiter that is awake are weaker. */
  lemma NotifiedInv(s: State)
    requires Consistent(s)
    ensures Inv(Notified(s))
  {
    CountsAwake(s.procs);
    hide Admissions, Transitions, Slots;
    var t := Notified(s);
    forall j | 0 <= j < |t.procs| ensures ProcOk(t, j) {
      assert ProcOk(s, j);
    }
    forall j | 0 <= j < |t.procs| ensures SleepOk(t, j) {
    }
    assert ClientsOk(t) by {
      if t.client.Some? && t.client.value in t.stops {
        var j :| 0 <= j < |s.procs| && BeingReplaced(s.procs[j]);
        assert BeingReplaced(t.procs[j]);
      }
    }
  }

  /** Nobody but caller i changed, and the clients did not either. */
  lemma SameClients(s: State, t: State, i: nat, p: Proc)
    requires ClientsOk(s) && i < |s.procs| && t.procs == s.procs[i := p]
    requires t.client == s.client && t.generation == s.generation && t.nextClient == s.nextClient && t.issued == s.issued && t.stops == s.stops
    requires BeingReplaced(s.procs[i]) ==> BeingReplaced(p)
    ensures ClientsOk(t)
  {
    if t.client.Some? && t.client.value in t.stops {
      var j :| 0 <= j < |s.procs| && BeingReplaced(s.procs[j]);
      assert BeingReplaced(t.procs[j]);
    }
  }

  /** Facts of the others that a step of caller i leaves alone. */
  ghost predicate OthersOk(s: State, t: State, i: nat) {
    && |t.procs| == |s.procs|
    && forall j :: 0 <= j < |t.procs| && j != i ==> ProcOk(t, j) && SleepOk(t, j)
  }

  /** The flag, the count and the client stay as they are. */
  lemma QuietOthers(s: State, t: State, i: nat, p: Proc)
    requires Inv(s) && i < |s.procs| && t.procs == s.procs[i := p]
    requires t == s.(procs := t.procs)
    ensures OthersOk(s, t, i)
  {
    forall j | 0 <= j < |t.procs| && j != i ensures ProcOk(t, j) && SleepOk(t, j) {
      assert ProcOk(s, j) && SleepOk(s, j);
    }
  }

  lemma QuietStep(s: State, i: nat, pc: Pc)
    requires Inv(s) && i < |s.procs|
    requires var p := s.procs[i].(pc := pc);
      && HoldsAdmission(p) == HoldsAdmission(s.procs[i]) && Transitioning(p) == Transitioning(s.procs[i])
      && (HoldsSlot(p) && !HoldsSlot(s.procs[i]) ==> Slots(s.procs) < s.capacity)
      && (BeingReplaced(s.procs[i]) ==> BeingReplaced(p))
    requires ProcOk(At(s, i, pc), i) && SleepOk(At(s, i, pc), i)
    ensures Inv(At(s, i, pc))
  {
    hide HoldsAdmission, Transitioning, HoldsSlot, BeingReplaced, Slots, Admissions, Transitions, ClientsOk, ProcOk, SleepOk;
    var p := s.procs[i].(pc := pc);
    var t := At(s, i, pc);
    QuietOthers(s, t, i, p);
    SameClients(s, t, i, p);
    Reestablish(s, t, i, p);
  }

  lemma AdmitStep(s: State, i: nat)
    requires Inv(s) && i < |s.procs| && s.procs[i].pc == Admitting(true) && s.starter.None?
    ensures Inv(TryAdmit(s, i))
  {
    hide Slots, Admissions, Transitions, ClientsOk;
    if s.refreshing {
      QuietStep(s, i, Admitting(false));
    } else if s.client.None? {
      var t := TryAdmit(s, i);
      var p := s.procs[i].(pc := Starting);
      forall j | 0 <= j < |t.procs| ensures ProcOk(t, j) && SleepOk(t, j) {
        assert ProcOk(s, j) && SleepOk(s, j);
      }
      SameClients(s, t, i, p);
      Reestablish(s, t, i, p);
    } else {
      AdmittedStep(s, i);
    }
  }

  /** Gaining an admission while nobody is in a transition. */
  lemma AdmittedStep(s: State, i: nat)
    requires Consistent(s) && i < |s.procs| && !s.refreshing && s.client.Some? && s.starter.None?
    requires forall j :: 0 <= j < |s.procs| && j != i ==> SleepOk(s, j)
    requires s.procs[i].pc == Admitting(true)
    ensures Inv(Admit(s, i))
  {
    hide Slots, Admissions, Transitions, ClientsOk;
    var t := Admit(s, i);
    var p := s.procs[i].(pc := Using(s.client.value, s.generation));
    forall j | 0 <= j < |t.procs| ensures ProcOk(t, j) && SleepOk(t, j) {
      if j != i {
        assert ProcOk(s, j) && SleepOk(s, j);
        assert Transitioning(s.procs[j]) ==> s.refreshing by {
          if Transitioning(s.procs[j]) { OneTransition(s, j, j); }
        }
      } else {
        assert ProcOk(s, i);
      }
    }
    SameClients(s, t, i, p);
    Reestablish(s, t, i, p);
  }

  /** A new client in an empty place, under a new generation number. */
  lemma InstallFresh(s: State, t: State, i: nat, p: Proc, c: int)
    requires ClientsOk(s) && i < |s.procs| && t.procs == s.procs[i := p]
    requires t.client == Some(c) && t.generation == s.generation + 1 && t.issued == s.issued[s.generation + 1 := c]
    requires t.stops == s.stops && c !in s.stops && s.nextClient <= t.nextClient && c < t.nextClient
    ensures ClientsOk(t)
  {
  }

  lemma StartedStep(s: State, i: nat, ok: bool)
    requires Inv(s) && i < |s.procs| && s.procs[i].pc.Starting?
    ensures Inv(FinishStart(s, i, ok))
  {
    hide Slots, Admissions, Transitions;
    assert ProcOk(s, i);
    var t := FinishStart(s, i, ok);
    var p := t.procs[i];
    forall j | 0 <= j < |t.procs| ensures ProcOk(t, j) && SleepOk(t, j) {
      assert ProcOk(s, j) && SleepOk(s, j);
      Exclusion(s, i, j);
    }
    if ok {
      InstallFresh(s, t, i, p, s.nextClient);
    } else {
      SameClients(s, t, i, p);
    }
    hide ClientsOk;
    Reestablish(s, t, i, p);
  }

  lemma ReleaseStep(s: State, i: nat, failed: bool)
    requires Inv(s) && i < |s.procs| && s.procs[i].pc.Using? && s.starter.None?
    ensures Inv(ReleaseAdmission(s, i, failed))
  {
    hide Slots, Admissions, Transitions, ClientsOk;
    Exclusion(s, i, i);
    var p := s.procs[i];
    var next := if p.role != Stream then Done else if failed && !p.retried then StopEntry(p.pc.gen) else Leaving(false);
    var t := At(s, i, next).(active := s.active - 1);
    forall j | 0 <= j < |t.procs| ensures ProcOk(t, j) {
      assert ProcOk(s, j);
      Exclusion(s, i, j);
    }
    SameClients(s, t, i, p.(pc := next));
    Reestablish(s, t, i, p.(pc := next));
    NotifiedInv(t);
  }

  lemma LeaveStep(s: State, i: nat, again: bool)
    requires Inv(s) && i < |s.procs| && s.procs[i].pc == Leaving(again)
    ensures Inv(Leave(s, i, again))
  {
    hide Slots, Admissions, Transitions, ClientsOk;
    var t := Leave(s, i, again);
    assert ProcOk(s, i);
    QuietOthers(s, t, i, t.procs[i]);
    SameClients(s, t, i, t.procs[i]);
    Reestablish(s, t, i, t.procs[i]);
  }

  // ------------------------------------------------------------------ transitions

  /** The old client leaves its place; it has not been stopped yet. */
  lemma RemoveClient(s: State, t: State)
    requires ClientsOk(s) && t.client == None
    requires t.generation == s.generation && t.nextClient == s.nextClient && t.issued == s.issued && t.stops == s.stops
    ensures ClientsOk(t)
  {
  }

  /** Nobody has stopped the current client while no other caller is in a transition. */
  lemma ClientNotStopped(s: State, i: nat)
    requires Consistent(s) && i < |s.procs| && s.client.Some? && !BeingReplaced(s.procs[i])
    requires Transitioning(s.procs[i]) || !s.refreshing
    ensures s.client.value !in s.stops
  {
    if s.client.value in s.stops {
      var j :| 0 <= j < |s.procs| && BeingReplaced(s.procs[j]);
      OneTransition(s, j, j);
      if Transitioning(s.procs[i]) {
        OneTransition(s, i, j);
      }
    }
  }

  /** Entering the transition, or going on in it once the count is down. */
  predicate MayTransition(s: State, p: Proc) {
    if Transitioning(p) then s.refreshing && (p.pc.StopDrain? || p.pc.TransDrain?) else !s.refreshing
  }

  lemma NobodyElse(s: State, i: nat, j: nat)
    requires Inv(s) && i < |s.procs| && j < |s.procs| && MayTransition(s, s.procs[i]) && j != i
    ensures !Transitioning(s.procs[j])
  {
    if Transitioning(s.procs[j]) {
      OneTransition(s, j, j);
      if Transitioning(s.procs[i]) {
        OneTransition(s, i, j);
      }
    }
  }

  lemma NobodyAdmitted(s: State, j: nat)
    requires Consistent(s) && j < |s.procs| && s.active == 0
    ensures !HoldsAdmission(s.procs[j])
  {
    if HoldsAdmission(s.procs[j]) {
      AdmittedCounts(s.procs, j);
    }
  }

  lemma TakeStep(s: State, i: nat, gen: nat)
    requires Inv(s) && i < |s.procs| && s.starter.None? && MayTransition(s, s.procs[i])
    requires s.procs[i].role == Stream && !s.procs[i].retried && s.client.Some? && s.generation == gen
    requires s.procs[i].pc.StopEntry? || s.procs[i].pc.StopFlag? || s.procs[i].pc.StopDrain?
    ensures Inv(TakeClient(s.(refreshing := true), i, gen))
  {
    hide Slots, Admissions, Transitions;
    var t := TakeClient(s.(refreshing := true), i, gen);
    var p := t.procs[i];
    if s.active == 0 {
      ClientNotStopped(s, i);
    }
    assert ProcOk(s, i);
    forall j | 0 <= j < |t.procs| ensures ProcOk(t, j) && SleepOk(t, j) {
      if j != i {
        assert ProcOk(s, j) && SleepOk(s, j);
        NobodyElse(s, i, j);
        if s.active == 0 {
          NobodyAdmitted(s, j);
        }
      }
    }
    if s.active == 0 {
      RemoveClient(s, t);
    } else {
      SameClients(s, t, i, p);
    }
    hide ClientsOk;
    Reestablish(s, t, i, p);
  }

  lemma TryStopStep(s: State, i: nat, gen: nat)
    requires Inv(s) && i < |s.procs| && s.starter.None?
    requires s.procs[i].pc == StopEntry(gen) || s.procs[i].pc == StopFlag(gen, true)
    ensures Inv(TryStop(s, i, gen)) && Inv(RecheckStop(s, i, gen))
  {
    hide Slots, Admissions, Transitions, ClientsOk;
    assert ProcOk(s, i);
    if Stale(s, gen) {
      QuietStep(s, i, Leaving(true));
    } else if !s.refreshing {
      assert !Transitioning(s.procs[i]);
      TakeStep(s, i, gen);
    }
    if s.refreshing {
      QuietStep(s, i, StopFlag(gen, false));
    }
  }

  lemma StopCallStep(s: State, i: nat, c: int)
    requires Inv(s) && i < |s.procs| && s.procs[i].pc == StopCall(c)
    ensures Inv(At(s, i, StopClear).(stops := s.stops + [c]))
  {
    hide Slots, Admissions, Transitions;
    assert ProcOk(s, i);
    var t := At(s, i, StopClear).(stops := s.stops + [c]);
    forall j | 0 <= j < |t.procs| ensures ProcOk(t, j) && SleepOk(t, j) {
      assert ProcOk(s, j) && SleepOk(s, j);
      Exclusion(s, i, j);
    }
    assert ClientsOk(t);
    hide ClientsOk;
    Reestablish(s, t, i, t.procs[i]);
  }

  lemma StopClearStep(s: State, i: nat)
    requires Inv(s) && i < |s.procs| && s.procs[i].pc == StopClear && s.starter.None?
    ensures Inv(Notified(At(s, i, Leaving(true)).(refreshing := false)))
  {
    hide Slots, Admissions, Transitions, ClientsOk;
    assert ProcOk(s, i);
    Exclusion(s, i, i);
    var t := At(s, i, Leaving(true)).(refreshing := false);
    forall j | 0 <= j < |t.procs| ensures ProcOk(t, j) {
      assert ProcOk(s, j);
    }
    SameClients(s, t, i, t.procs[i]);
    Reestablish(s, t, i, t.procs[i]);
    NotifiedInv(t);
  }

  lemma DrainStep(s: State, i: nat)
    requires Inv(s) && i < |s.procs| && s.starter.None? && MayTransition(s, s.procs[i])
    requires s.procs[i].pc == TransFlag(true) || s.procs[i].pc == TransDrain(true)
    ensures Inv(DrainTransition(s.(refreshing := true), i))
  {
    hide Slots, Admissions, Transitions, ClientsOk;
    var t := DrainTransition(s.(refreshing := true), i);
    assert ProcOk(s, i);
    forall j | 0 <= j < |t.procs| ensures ProcOk(t, j) && SleepOk(t, j) {
      if j != i {
        assert ProcOk(s, j) && SleepOk(s, j);
      }
    }
    SameClients(s, t, i, t.procs[i]);
    Reestablish(s, t, i, t.procs[i]);
  }

  lemma TryTransitionStep(s: State, i: nat)
    requires Inv(s) && i < |s.procs| && s.starter.None? && s.procs[i].pc == TransFlag(true)
    ensures Inv(TryTransition(s, i))
  {
    hide Slots, Admissions, Transitions, ClientsOk;
    assert ProcOk(s, i);
    if s.refreshing {
      QuietStep(s, i, TransFlag(false));
    } else {
      DrainStep(s, i);
    }
  }

  lemma StopOldStep(s: State, i: nat)
    requires Inv(s) && i < |s.procs| && s.procs[i].pc == TransStop
    ensures Inv(StopOld(s, i))
  {
    hide Slots, Admissions, Transitions;
    assert ProcOk(s, i);
    var t := StopOld(s, i);
    if s.client.Some? {
      ClientNotStopped(s, i);
    }
    forall j | 0 <= j < |t.procs| ensures ProcOk(t, j) && SleepOk(t, j) {
      assert ProcOk(s, j) && SleepOk(s, j);
      Exclusion(s, i, j);
    }
    assert BeingReplaced(t.procs[i]);
    assert ClientsOk(t);
    hide ClientsOk;
    Reestablish(s, t, i, t.procs[i]);
  }

  lemma StartNewStep(s: State, i: nat, ok: bool)
    requires Inv(s) && i < |s.procs| && s.procs[i].pc == TransStart
    ensures Inv(StartNew(s, i, ok))
  {
    hide Slots, Admissions, Transitions;
    assert ProcOk(s, i);
    var t := StartNew(s, i, ok);
    forall j | 0 <= j < |t.procs| ensures ProcOk(t, j) && SleepOk(t, j) {
      assert ProcOk(s, j) && SleepOk(s, j);
      Exclusion(s, i, j);
    }
    assert BeingReplaced(t.procs[i]);
    assert ClientsOk(t);
    hide ClientsOk;
    Reestablish(s, t, i, t.procs[i]);
  }

  lemma EndStep(s: State, i: nat, installed: Option<int>)
    requires Inv(s) && i < |s.procs| && s.procs[i].pc == TransEnd(installed) && s.starter.None?
    ensures Inv(EndTransition(s, i, installed))
  {
    hide Slots, Admissions, Transitions;
    assert ProcOk(s, i);
    Exclusion(s, i, i);
    var p := s.procs[i];
    var next := if p.role == Refresh && installed.Some? then Admitting(true) else Done;
    var t := At(s, i, next).(client := installed, refreshing := false,
      generation := if installed.Some? then s.generation + 1 else s.generation,
      issued := if installed.Some? then s.issued[s.generation + 1 := installed.value] else s.issued);
    forall j | 0 <= j < |t.procs| ensures ProcOk(t, j) {
      assert ProcOk(s, j);
      Exclusion(s, i, j);
      NobodyAdmitted(s, j);
    }
    if installed.Some? {
      InstallFresh(s, t, i, t.procs[i], installed.value);
    } else {
      RemoveClient(s, t);
    }
    hide ClientsOk;
    Reestablish(s, t, i, t.procs[i]);
    NotifiedInv(t);
  }

  lemma NextInv(s: State, i: nat, choice: bool)
    requires Inv(s)
    ensures Inv(Next(s, i, choice))
  {
    hide Slots, Admissions, Transitions, ClientsOk, TryAdmit, ReleaseAdmission, TryStop, RecheckStop, TakeClient, TryTransition, DrainTransition;
    hide StopOld, StartNew, EndTransition, FinishStart, Notified;
    if i < |s.procs| {
      assert ProcOk(s, i);
      match s.procs[i].pc {
        case SlotWait => if Slots(s.procs) < s.capacity { QuietStep(s, i, Admitting(true)); }
        case Admitting(awake) => if awake && s.starter.None? { AdmitStep(s, i); }
        case Starting => StartedStep(s, i, choice);
        case Using(_, _) => if s.starter.None? { ReleaseStep(s, i, choice); }
        case StopEntry(gen) => if s.starter.None? { TryStopStep(s, i, gen); }
        case StopFlag(gen, awake) => if awake && s.starter.None? { TryStopStep(s, i, gen); }
        case StopDrain(gen, awake) => if awake && s.starter.None? { ResumeDrain(s, i, gen); }
        case StopCall(c) => StopCallStep(s, i, c);
        case StopClear => if s.starter.None? { StopClearStep(s, i); }
        case Leaving(again) => LeaveStep(s, i, again);
        case TransFlag(awake) => if awake && s.starter.None? { TryTransitionStep(s, i); }
        case TransDrain(awake) => if awake && s.starter.None? { ResumeTransition(s, i); }
        case TransStop => StopOldStep(s, i);
        case TransStart => StartNewStep(s, i, choice);
        case TransEnd(installed) => if s.starter.None? { EndStep(s, i, installed); }
        case Done =>
      }
    }
  }

  lemma ResumeDrain(s: State, i: nat, gen: nat)
    requires Inv(s) && i < |s.procs| && s.starter.None? && s.procs[i].pc == StopDrain(gen, true)
    ensures Inv(TakeClient(s, i, gen))
  {
    hide Slots, Admissions, Transitions, ClientsOk;
    assert ProcOk(s, i);
    OneTransition(s, i, i);
    TakeStep(s, i, gen);
    assert s.(refreshing := true) == s;
  }

  lemma ResumeTransition(s: State, i: nat)
    requires Inv(s) && i < |s.procs| && s.starter.None? && s.procs[i].pc == TransDrain(true)
    ensures Inv(DrainTransition(s, i))
  {
    hide Slots, Admissions, Transitions, ClientsOk;
    assert ProcOk(s, i);
    OneTransition(s, i, i);
    DrainStep(s, i);
    assert s.(refreshing := true) == s;
  }
}
