/** No client process is ever lost: every client started is the current one, or has been stopped, or is
    in the hands of the one caller that is about to stop or install it. And what each step of a
    replacement, a refresh or a start does to the client slot. */
module ClientOwnership {
  import opened Tables
  import opened Totals
  import opened ClientLifecycle
  import opened ClientTheorems

  /** The caller has taken the client out of its place to stop it, or has started it and not installed
      it yet. */
  predicate Holds(p: Proc, c: int) {
    p.pc == StopCall(c) || p.pc == TransEnd(Some(c))
  }

  ghost predicate Held(s: State, c: int) {
    exists i :: 0 <= i < |s.procs| && Holds(s.procs[i], c)
  }

  ghost predicate Owned(s: State, c: int) {
    s.client == Some(c) || c in s.stops || Held(s, c)
  }

  /** From the stop of the old client to the end of the transition, the slot still names it. */
  ghost predicate OldIsStopped(s: State) {
    (exists i :: 0 <= i < |s.procs| && BeingReplaced(s.procs[i])) && s.client.Some? ==> s.client.value in s.stops
  }

  // ------------------------------------------------------------------ one step

  /** A step changes its own caller, and at most wakes the others. */
  lemma StepShape(s: State, i: nat, choice: bool) returns (p: Proc)
    requires Inv(s) && i < |s.procs|
    ensures Next(s, i, choice).procs == s.procs[i := p] || Next(s, i, choice).procs == WakeAll(s.procs[i := p])
  {
    hide Inv, Next, Wake, WakeAll;
    if Next(s, i, choice) == s {
      p := s.procs[i];
      assert s.procs[i := p] == s.procs;
    } else {
      p := Moves(s, i, choice);
    }
  }

  lemma OthersStay(s: State, i: nat, choice: bool, j: nat)
    requires Inv(s) && i < |s.procs| && j < |s.procs|
    ensures |Next(s, i, choice).procs| == |s.procs|
    ensures j != i ==> Next(s, i, choice).procs[j] == s.procs[j] || Next(s, i, choice).procs[j] == Wake(s.procs[j])
  {
    hide Inv, Next, Wake;
    var p := StepShape(s, i, choice);
  }

  /** A holder goes on holding until its own next step. */
  lemma HeldByOthers(s: State, i: nat, choice: bool, c: int)
    requires Inv(s) && i < |s.procs| && Held(s, c) && !Holds(s.procs[i], c)
    ensures Held(Next(s, i, choice), c)
  {
    hide Inv, Next, Wake;
    var j :| 0 <= j < |s.procs| && Holds(s.procs[j], c);
    OthersStay(s, i, choice, j);
    WakeHolds(s.procs[j], c);
    assert Holds(Next(s, i, choice).procs[j], c);
  }

  lemma WakeHolds(p: Proc, c: int)
    ensures Holds(Wake(p), c) <==> Holds(p, c)
    ensures BeingReplaced(Wake(p)) <==> BeingReplaced(p)
  {
  }

  /** The slot changes only in these steps: a start, the taking of a client to be stopped, and the end
      of a transition. */
  lemma SlotChanges(s: State, i: nat, choice: bool)
    requires Inv(s) && i < |s.procs|
    ensures var t, pc := Next(s, i, choice), s.procs[i].pc;
      t.client != s.client ==>
        || (pc.Starting? && s.client.None? && t.client == Some(s.nextClient))
        || ((pc.StopEntry? || pc.StopFlag? || pc.StopDrain?) && s.client.Some? && t.client.None? && t.procs[i].pc == StopCall(s.client.value))
        || (pc.TransEnd? && t.client == pc.installed)
  {
    hide Slots, Admissions, Transitions, ClientsOk, WakeAll;
    assert ProcOk(s, i);
  }

  lemma StopsGrow(s: State, i: nat, choice: bool)
    ensures s.stops <= Next(s, i, choice).stops
    ensures i < |s.procs| && s.procs[i].pc.StopCall? ==> s.procs[i].pc.client in Next(s, i, choice).stops
    ensures i < |s.procs| && s.procs[i].pc.TransStop? && s.client.Some? ==> s.client.value in Next(s, i, choice).stops
  {
    hide Slots, WakeAll;
    if i < |s.procs| && s.procs[i].pc.StopCall? {
      assert (s.stops + [s.procs[i].pc.client])[|s.stops|] == s.procs[i].pc.client;
    }
    if i < |s.procs| && s.procs[i].pc.TransStop? && s.client.Some? {
      assert (s.stops + [s.client.value])[|s.stops|] == s.client.value;
    }
  }

  /** Who may be on the way to the end of a transition after a step. */
  lemma ReplacersAfter(s: State, i: nat, choice: bool, j: nat)
    requires Inv(s) && i < |s.procs| && j < |Next(s, i, choice).procs| && BeingReplaced(Next(s, i, choice).procs[j])
    ensures |Next(s, i, choice).procs| == |s.procs|
    ensures BeingReplaced(s.procs[j]) || (j == i && s.procs[i].pc.TransStop?)
  {
    hide Inv, Next, BeingReplaced, Wake;
    OthersStay(s, i, choice, i);
    OthersStay(s, i, choice, j);
    WakeHolds(s.procs[j], 0);
    if j == i {
      OwnReplacement(s, i, choice);
    }
  }

  lemma OwnReplacement(s: State, i: nat, choice: bool)
    requires Inv(s) && i < |s.procs| && |Next(s, i, choice).procs| == |s.procs| && BeingReplaced(Next(s, i, choice).procs[i])
    ensures s.procs[i].pc.TransStop? || (BeingReplaced(s.procs[i]) && Next(s, i, choice).client == s.client)
  {
    hide Slots, Inv;
    match s.procs[i].pc {
      case TransStop =>
      case TransStart =>
      case TransEnd(_) =>
      case Using(_, _) =>
      case StopClear =>
      case _ => NeverReplacing(s, i, choice);
    }
  }

  lemma NeverReplacing(s: State, i: nat, choice: bool)
    requires i < |s.procs| && !s.procs[i].pc.TransStop? && !BeingReplaced(s.procs[i]) && !s.procs[i].pc.Using? && !s.procs[i].pc.StopClear?
    ensures i < |Next(s, i, choice).procs| && !BeingReplaced(Next(s, i, choice).procs[i])
  {
    hide Slots, Notified;
    match s.procs[i].pc {
      case StopEntry(_) =>
      case StopFlag(_, _) =>
      case StopDrain(_, _) =>
      case TransFlag(_) =>
      case TransDrain(_) =>
      case Admitting(_) =>
      case Starting =>
      case _ =>
    }
  }

  lemma OldStaysStopped(s: State, i: nat, choice: bool)
    requires Inv(s) && OldIsStopped(s)
    ensures OldIsStopped(Next(s, i, choice))
  {
    hide Next, Inv, BeingReplaced;
    var t := Next(s, i, choice);
    if i >= |s.procs| {
      NothingHappens(s, i, choice);
    } else if j :| 0 <= j < |t.procs| && BeingReplaced(t.procs[j]) && t.client.Some? {
      ReplacersAfter(s, i, choice, j);
      StopsGrow(s, i, choice);
      SlotChanges(s, i, choice);
      if BeingReplaced(s.procs[j]) {
        ReplacerAlone(s, i, choice, j);
      }
    }
  }

  lemma NothingHappens(s: State, i: nat, choice: bool)
    requires i >= |s.procs|
    ensures Next(s, i, choice) == s
  {
  }

  /** While somebody is replacing the client, nobody else changes the slot. */
  lemma ReplacerAlone(s: State, i: nat, choice: bool, j: nat)
    requires Inv(s) && i < |s.procs| && j < |s.procs| && BeingReplaced(s.procs[j])
    requires |Next(s, i, choice).procs| == |s.procs| && BeingReplaced(Next(s, i, choice).procs[j])
    ensures Next(s, i, choice).client == s.client
  {
    hide Slots, Admissions, Transitions, ClientsOk, Next, SleepOk;
    assert ProcOk(s, i) && ProcOk(s, j);
    OneTransition(s, j, j);
    if j == i {
      OwnReplacement(s, i, choice);
    } else {
      SlotChanges(s, i, choice);
      if Transitioning(s.procs[i]) {
        OneTransition(s, i, j);
      } else {
        OutsideTransition(s, i, choice);
      }
    }
  }

  /** Outside of a transition nobody changes the slot while the flag is set. */
  lemma OutsideTransition(s: State, i: nat, choice: bool)
    requires Inv(s) && i < |s.procs| && !Transitioning(s.procs[i]) && s.refreshing
    ensures Next(s, i, choice).client == s.client
  {
    hide Slots, Admissions, Transitions, SleepOk, ClientsOk, WakeAll;
    assert ProcOk(s, i);
  }

  /** No step loses a client. */
  lemma OwnedStep(s: State, i: nat, choice: bool, c: int)
    requires Inv(s) && OldIsStopped(s) && Owned(s, c)
    ensures Owned(Next(s, i, choice), c)
  {
    hide Next, Inv;
    if i >= |s.procs| {
      NothingHappens(s, i, choice);
    } else {
      var t := Next(s, i, choice);
      StopsGrow(s, i, choice);
      SlotChanges(s, i, choice);
      OthersStay(s, i, choice, i);
      if s.client == Some(c) {
        if t.client != s.client && s.procs[i].pc.TransEnd? {
          assert BeingReplaced(s.procs[i]);
        } else if t.client != s.client {
          assert Holds(t.procs[i], c);
        }
      } else if Held(s, c) {
        if Holds(s.procs[i], c) {
          if s.procs[i].pc == TransEnd(Some(c)) {
            Installs(s, i, choice, c);
          }
        } else {
          HeldByOthers(s, i, choice, c);
        }
      }
    }
  }

  lemma Installs(s: State, i: nat, choice: bool, c: int)
    requires i < |s.procs| && s.procs[i].pc == TransEnd(Some(c))
    ensures Next(s, i, choice).client == Some(c) || Next(s, i, choice) == s
  {
    hide Slots, WakeAll;
  }

  /** A client started by a step is the current one, or in the hands of the caller that started it. */
  lemma StartedIsOwned(s: State, i: nat, choice: bool, c: int)
    requires s.nextClient <= c < Next(s, i, choice).nextClient
    ensures c == s.nextClient && Owned(Next(s, i, choice), c)
  {
    hide Slots, WakeAll;
    OnlyStartsCount(s, i, choice);
    var t := Next(s, i, choice);
    if s.procs[i].pc.TransStart? {
      assert Holds(t.procs[i], c);
    }
  }

  lemma OnlyStartsCount(s: State, i: nat, choice: bool)
    ensures Next(s, i, choice).nextClient == s.nextClient
      || (i < |s.procs| && (s.procs[i].pc.TransStart? || s.procs[i].pc.Starting?) && Next(s, i, choice).nextClient == s.nextClient + 1)
  {
    hide Slots, WakeAll;
  }

  // ------------------------------------------------------------------ whole runs

  lemma {:induction false} RunOwned(s0: State, moves: seq<Move>, c: int)
    requires Initial(s0)
    ensures Inv(Run(s0, moves)) && OldIsStopped(Run(s0, moves))
    ensures s0.client == Some(c) || s0.nextClient <= c < Run(s0, moves).nextClient ==> Owned(Run(s0, moves), c)
  {
    hide Inv, Next, Owned, BeingReplaced;
    RunInv(s0, moves);
    if moves == [] {
      AtFirst(s0, c);
    } else {
      var n := |moves| - 1;
      var before := Run(s0, moves[..n]);
      RunOwned(s0, moves[..n], c);
      OldStaysStopped(before, moves[n].caller, moves[n].choice);
      if s0.client == Some(c) || s0.nextClient <= c < before.nextClient {
        OwnedStep(before, moves[n].caller, moves[n].choice, c);
      } else if before.nextClient <= c < Run(s0, moves).nextClient {
        StartedIsOwned(before, moves[n].caller, moves[n].choice, c);
      }
    }
  }

  lemma AtFirst(s0: State, c: int)
    requires Initial(s0)
    ensures OldIsStopped(s0) && (s0.client == Some(c) ==> Owned(s0, c))
  {
    forall i | 0 <= i < |s0.procs| ensures !BeingReplaced(s0.procs[i]) {
      assert AtEntry(s0.procs[i]);
    }
  }

  /** A client is in one place only. The slot may still name a stopped client, but only while the caller
      that stopped it is in the middle of replacing it. */
  lemma InOnePlace(s: State, c: int)
    requires Inv(s)
    ensures !(Held(s, c) && c in s.stops) && !(Held(s, c) && s.client == Some(c))
    ensures s.client == Some(c) && c in s.stops ==> exists i :: 0 <= i < |s.procs| && BeingReplaced(s.procs[i])
    ensures forall i, j :: 0 <= i < |s.procs| && 0 <= j < |s.procs| && Holds(s.procs[i], c) && Holds(s.procs[j], c) ==> i == j
  {
    hide Slots, Admissions, Transitions;
    forall i | 0 <= i < |s.procs| && Holds(s.procs[i], c) ensures c !in s.stops && s.client != Some(c) {
      assert ProcOk(s, i);
    }
    forall i, j | 0 <= i < |s.procs| && 0 <= j < |s.procs| && Holds(s.procs[i], c) && Holds(s.procs[j], c) ensures i == j {
      OneTransition(s, i, j);
    }
  }

  /** No orphan process: at every moment of every run, each client that was there at the start or has
      been started since is the current one, or has been stopped, or is in the hands of exactly one
      caller about to stop or install it. */
  lemma NoOrphanClient(s0: State, moves: seq<Move>, c: int)
    requires Initial(s0) && (s0.client == Some(c) || s0.nextClient <= c < Run(s0, moves).nextClient)
    ensures var s := Run(s0, moves);
      && (s.client == Some(c) || c in s.stops || exists i :: 0 <= i < |s.procs| && Holds(s.procs[i], c))
      && !(Held(s, c) && c in s.stops) && !(Held(s, c) && s.client == Some(c))
      && (s.client == Some(c) && c in s.stops ==> exists i :: 0 <= i < |s.procs| && BeingReplaced(s.procs[i]))
      && forall i, j :: 0 <= i < |s.procs| && 0 <= j < |s.procs| && Holds(s.procs[i], c) && Holds(s.procs[j], c) ==> i == j
  {
    hide Inv, Run, BeingReplaced, Initial;
    RunOwned(s0, moves, c);
    InOnePlace(Run(s0, moves), c);
  }

  /** Once all callers are through, every client ever started is either the current one or stopped, and
      not both. */
  lemma AllClientsAccountedFor(s0: State, moves: seq<Move>, c: int)
    requires Initial(s0) && (s0.client == Some(c) || s0.nextClient <= c < Run(s0, moves).nextClient)
    requires AllDone(Run(s0, moves))
    ensures Run(s0, moves).client == Some(c) <==> c !in Run(s0, moves).stops
  {
    hide Inv, Run, Initial;
    NoOrphanClient(s0, moves, c);
    var s := Run(s0, moves);
    forall i | 0 <= i < |s.procs| ensures !Holds(s.procs[i], c) && !BeingReplaced(s.procs[i]) {
      assert s.procs[i].pc.Done?;
    }
  }

  // ------------------------------------------------------------------ what the steps come to

  /** A refresh that has started a client installs that very client, under a generation number never
      given out before, reopens admission, and goes on to read the models as a caller like any other.
      One that could not start any leaves the slot empty and the number as it was. */
  lemma RefreshInstallsItsClient(s: State, i: nat, choice: bool)
    requires Inv(s) && s.starter.None? && i < |s.procs| && s.procs[i].pc.TransEnd?
    ensures var t, installed := Next(s, i, choice), s.procs[i].pc.installed;
      && t.client == installed && !t.refreshing && |t.procs| == |s.procs| && t.stops == s.stops
      && (forall g :: g in s.issued ==> g in t.issued && t.issued[g] == s.issued[g])
      && (installed.Some? ==> t.generation !in s.issued && t.generation in t.issued && t.issued[t.generation] == installed.value)
      && (installed.None? ==> t.generation == s.generation && t.issued == s.issued)
      && t.procs[i].pc == (if s.procs[i].role == Refresh && installed.Some? then Admitting(true) else Done)
      && forall j :: 0 <= j < |t.procs| ==> !Asleep(t.procs[j])
  {
    hide Slots, Admissions, Transitions, ProcOk, SleepOk;
    assert s.generation + 1 !in s.issued;
    forall j | 0 <= j < |s.procs| ensures !Asleep(Next(s, i, choice).procs[j]) {
    }
  }

  /** Between two transitions: the old client is stopped once nobody uses it, then (in a refresh) a new
      one is started. */
  lemma TransitionSteps(s: State, i: nat, choice: bool)
    requires Inv(s) && i < |s.procs|
    ensures s.procs[i].pc.TransStop? ==>
      var t := Next(s, i, choice);
      && t.stops == s.stops + (if s.client.Some? then [s.client.value] else []) && t.client == s.client && t.nextClient == s.nextClient
      && |t.procs| == |s.procs| && t.procs[i].pc == (if s.procs[i].role == Refresh then TransStart else TransEnd(None))
    ensures s.procs[i].pc.TransStart? ==>
      var t := Next(s, i, choice);
      && t.stops == s.stops && t.client == s.client && t.nextClient == s.nextClient + One(choice)
      && |t.procs| == |s.procs| && t.procs[i].pc == TransEnd(if choice then Some(s.nextClient) else None)
  {
    hide Slots, Admissions, Transitions, ProcOk, SleepOk, WakeAll;
  }

  /** A caller that finds no client starts one and is admitted to it; a failed start leaves the slot
      empty and ends the caller. */
  lemma StartInstallsItsClient(s: State, i: nat, choice: bool)
    requires Inv(s) && i < |s.procs| && s.procs[i].pc.Starting?
    ensures var t := Next(s, i, choice);
      && t.starter.None? && |t.procs| == |s.procs|
      && (choice ==> t.client == Some(s.nextClient) && t.nextClient == s.nextClient + 1 && t.generation !in s.issued
                     && t.generation in t.issued && t.issued[t.generation] == s.nextClient
                     && t.procs[i].pc == Using(s.nextClient, t.generation) && t.active == s.active + 1)
      && (!choice ==> t.client.None? && t.nextClient == s.nextClient && t.generation == s.generation && t.active == s.active
                      && (t.procs[i].pc == Leaving(false) || t.procs[i].pc.Done?))
  {
    hide Slots, Admissions, Transitions, SleepOk, WakeAll;
    assert ProcOk(s, i);
    assert s.generation + 1 !in s.issued;
  }

  /** A stream whose transport failed before any token goes on, its own admission given back, to
      replace the client it used, and then starts over once; every other caller is through. */
  lemma FailedStreamStartsOver(s: State, i: nat, choice: bool)
    requires Inv(s) && i < |s.procs|
    ensures s.procs[i].pc.Using? && s.starter.None? ==>
      var t, p := Next(s, i, choice), s.procs[i];
      && t.active == s.active - 1 && |t.procs| == |s.procs|
      && t.procs[i].pc == (if p.role == Stream && choice && !p.retried then StopEntry(p.pc.gen) else if p.role == Stream then Leaving(false) else Done)
    ensures s.procs[i].pc.Leaving? ==>
      var t, again := Next(s, i, choice), s.procs[i].pc.again;
      && |t.procs| == |s.procs| && t.procs[i].pc == (if again then SlotWait else Done)
      && (again ==> !s.procs[i].retried && t.procs[i].retried)
    ensures s.procs[i].pc.StopClear? && s.starter.None? ==>
      var t := Next(s, i, choice);
      !t.refreshing && |t.procs| == |s.procs| && t.procs[i].pc == Leaving(true)
  {
    hide Slots, Admissions, Transitions, SleepOk, ClientsOk;
    assert ProcOk(s, i);
    if s.procs[i].pc.Using? {
      Exclusion(s, i, i);
    }
  }

  /** The current client is replaced only if it is still the one the failed stream used; otherwise that
      stream just starts over. A client taken out is stopped before admission is reopened. */
  lemma ReplacementSteps(s: State, i: nat, choice: bool, gen: nat)
    requires Inv(s) && s.starter.None? && i < |s.procs|
    ensures s.procs[i].pc == StopEntry(gen) ==>
      var t := Next(s, i, choice);
      && |t.procs| == |s.procs|
      && t.procs[i].pc ==
           (if s.client.None? || s.generation != gen then Leaving(true)
            else if s.refreshing then StopFlag(gen, false)
            else if s.active > 0 then StopDrain(gen, false)
            else StopCall(s.client.value))
      && (t.refreshing <==> s.refreshing || t.procs[i].pc.StopDrain? || t.procs[i].pc.StopCall?)
    ensures s.procs[i].pc.StopCall? ==>
      var t := Next(s, i, choice);
      t.stops == s.stops + [s.procs[i].pc.client] && t.refreshing && |t.procs| == |s.procs| && t.procs[i].pc == StopClear
  {
    hide Slots, Admissions, SleepOk, ClientsOk, WakeAll;
    assert ProcOk(s, i);
    if s.procs[i].pc.StopCall? {
      OneTransition(s, i, i);
    }
    hide Transitions;
  }

  /** Waiting again: a stream looks once more whether the client is still the one it used, and waits
      until nobody works on it; a transition waits for the flag, sets it, and then for the last
      admission; an admission waits for the end of a transition, and never starts a second client. */
  lemma WaitingSteps(s: State, i: nat, choice: bool, gen: nat)
    requires Inv(s) && s.starter.None? && i < |s.procs|
    ensures |Next(s, i, choice).procs| == |s.procs|
    ensures s.procs[i].pc == StopFlag(gen, true) ==>
      Next(s, i, choice).procs[i].pc == (
        if s.refreshing then StopFlag(gen, false)
        else if s.client.None? || s.generation != gen then Leaving(true)
        else if s.active > 0 then StopDrain(gen, false)
        else StopCall(s.client.value))
    ensures s.procs[i].pc == StopDrain(gen, true) ==>
      s.client.Some? && Next(s, i, choice).procs[i].pc == (if s.active > 0 then StopDrain(gen, false) else StopCall(s.client.value))
    ensures s.procs[i].pc == TransFlag(true) ==>
      Next(s, i, choice).refreshing
      && Next(s, i, choice).procs[i].pc == (if s.refreshing then TransFlag(false) else if s.active > 0 then TransDrain(false) else TransStop)
    ensures s.procs[i].pc == TransDrain(true) ==>
      Next(s, i, choice).refreshing && Next(s, i, choice).procs[i].pc == (if s.active > 0 then TransDrain(false) else TransStop)
    ensures s.procs[i].pc == Admitting(true) ==>
      Next(s, i, choice).client == s.client
      && Next(s, i, choice).procs[i].pc == (
        if s.refreshing then Admitting(false)
        else if s.client.None? then Starting
        else Using(s.client.value, s.generation))
  {
    hide Slots, Admissions, SleepOk, ClientsOk, WakeAll;
    assert ProcOk(s, i);
    if s.procs[i].pc.TransDrain? {
      OneTransition(s, i, i);
    }
    OthersStay(s, i, choice, i);
    hide Transitions;
  }
}
