/** `stream_completion_envelope`: the retry loop around one streamed completion, against every
    script of events the SDK can produce and a consumer that may stop listening at any token. */
module CompletionStream {
  import opened Tables

  /** What the SDK delivers next. `TransportFailure` is any of the retryable transport errors
      (process exit, connection error), `OtherFailure` any other exception. */
  datatype Event =
    | Delta(text: string)
    | SessionError
    | IdleEvent
    | Irrelevant
    | TransportFailure
    | OtherFailure

  /** One attempt: whether a client could be admitted at all, and its events. Events running out is
      a stall, which is a transport failure too. */
  datatype Attempt = Attempt(admits: bool, events: seq<Event>)

  datatype Ending = Completed | SessionFailed | TransportFailed | OtherFailed | Closed | NotAdmitted

  datatype Call = AdmitCall | ReleaseCall | ReplaceCall

  /** The calls made into the client lifecycle, in order. */
  class Lifecycle {
    var log: seq<Call>

    constructor ()
      ensures log == []
    {
      log := [];
    }

    method Called(c: Call)
      modifies this
      ensures log == old(log) + [c]
    {
      log := log + [c];
    }
  }

  // ------------------------------------------------------------------ specification

  /** The nonempty deltas among the events, in order. */
  function Deltas(events: seq<Event>): seq<string> {
    if events == [] then []
    else if events[0].Delta? && events[0].text != "" then [events[0].text] + Deltas(events[1..])
    else Deltas(events[1..])
  }

  /** Index of the event that ends the attempt, or the number of events if they run out. `patience`
      is how many tokens the consumer takes before it stops listening (None: all of them). */
  function EndsAt(events: seq<Event>, patience: Option<nat>): (n: nat)
    ensures n <= |events|
    decreases |events|
  {
    if events == [] then 0
    else
      match events[0]
      case Irrelevant => 1 + EndsAt(events[1..], patience)
      case Delta(text) =>
        if text == "" then 1 + EndsAt(events[1..], patience)
        else if patience.Some? && patience.value <= 1 then 0
        else 1 + EndsAt(events[1..], if patience.Some? then Some(patience.value - 1) else None)
      case _ => 0
  }

  /** How the event at which an attempt ends ends it. */
  function EndingOf(events: seq<Event>, n: nat): Ending
    requires n <= |events|
  {
    if n == |events| then TransportFailed
    else
      match events[n]
      case SessionError => SessionFailed
      case IdleEvent => Completed
      case TransportFailure => TransportFailed
      case OtherFailure => OtherFailed
      case Delta(_) => Closed
      case Irrelevant => TransportFailed
  }

  datatype Outcome = Outcome(tokens: seq<string>, ending: Ending)

  /** One attempt: the tokens that reach the consumer, and how it ends. */
  function AttemptOutcome(a: Attempt, patience: Option<nat>): Outcome {
    if !a.admits then Outcome([], NotAdmitted)
    else
      var n := EndsAt(a.events, patience);
      var ending := EndingOf(a.events, n);
      Outcome(Deltas(a.events[..if ending == Closed then n + 1 else n]), ending)
  }

  /** The whole stream: a second attempt only after a transport failure before the first token. */
  predicate Retries(first: Outcome) {
    first.ending == TransportFailed && first.tokens == []
  }

  function StreamOutcome(first: Attempt, second: Attempt, patience: Option<nat>): Outcome {
    var o := AttemptOutcome(first, patience);
    if Retries(o) then AttemptOutcome(second, patience) else o
  }

  function Calls(a: Attempt): seq<Call> {
    if a.admits then [AdmitCall, ReleaseCall] else []
  }

  function StreamCalls(first: Attempt, second: Attempt, patience: Option<nat>): seq<Call> {
    if Retries(AttemptOutcome(first, patience)) then Calls(first) + [ReplaceCall] + Calls(second) else Calls(first)
  }

  // ------------------------------------------------------------------ the generator

  lemma {:induction false} DeltasConcat(a: seq<Event>, b: seq<Event>)
    ensures Deltas(a + b) == Deltas(a) + Deltas(b)
  {
    if a == [] {
      assert a + b == b;
    } else {
      assert (a + b)[1..] == a[1..] + b;
      DeltasConcat(a[1..], b);
    }
  }

  lemma OneMoreEvent(events: seq<Event>, n: nat)
    requires n < |events|
    ensures Deltas(events[..n + 1]) ==
      Deltas(events[..n]) + (if events[n].Delta? && events[n].text != "" then [events[n].text] else [])
  {
    assert events[..n + 1] == events[..n] + [events[n]];
    DeltasConcat(events[..n], [events[n]]);
    assert [events[n]][1..] == [];
  }

  function Left(patience: Option<nat>, taken: nat): Option<nat> {
    if patience.Some? then Some(if patience.value > taken then patience.value - taken else 0) else None
  }

  /** The loop of an attempt after its first n events, having yielded `tokens`. */
  ghost predicate SoFar(events: seq<Event>, patience: Option<nat>, n: nat, tokens: seq<string>) {
    && n <= |events|
    && tokens == Deltas(events[..n])
    && EndsAt(events, patience) == n + EndsAt(events[n..], Left(patience, |tokens|))
    && (patience.Some? && tokens != [] ==> |tokens| < patience.value)
  }

  predicate Token(e: Event) {
    e.Delta? && e.text != ""
  }

  lemma ReadsOn(events: seq<Event>, patience: Option<nat>, n: nat, tokens: seq<string>)
    requires SoFar(events, patience, n, tokens) && n < |events| && (events[n].Delta? || events[n].Irrelevant?)
    requires Token(events[n]) && patience.Some? ==> |tokens| + 1 < patience.value
    ensures SoFar(events, patience, n + 1, tokens + if Token(events[n]) then [events[n].text] else [])
  {
    var rest := events[n..];
    assert rest[0] == events[n] && rest[1..] == events[n + 1..];
    OneMoreEvent(events, n);
    hide Deltas;
  }

  lemma StopsHere(events: seq<Event>, patience: Option<nat>, n: nat, tokens: seq<string>)
    requires SoFar(events, patience, n, tokens) && n < |events|
    requires (!events[n].Delta? && !events[n].Irrelevant?) || (Token(events[n]) && patience.Some? && |tokens| + 1 >= patience.value)
    ensures AttemptOutcome(Attempt(true, events), patience) ==
      Outcome(if Token(events[n]) then tokens + [events[n].text] else tokens, EndingOf(events, n))
  {
    assert events[n..][0] == events[n];
    OneMoreEvent(events, n);
    assert EndsAt(events[n..], Left(patience, |tokens|)) == 0;
    hide Deltas, EndsAt;
  }

  lemma RunsOut(events: seq<Event>, patience: Option<nat>, tokens: seq<string>)
    requires SoFar(events, patience, |events|, tokens)
    ensures AttemptOutcome(Attempt(true, events), patience) == Outcome(tokens, TransportFailed)
  {
    assert events[..|events|] == events && events[|events|..] == [];
  }

  lemma StartsReading(events: seq<Event>, patience: Option<nat>)
    ensures SoFar(events, patience, 0, [])
  {
    assert events[0..] == events && events[..0] == [];
    LeftAtStart(events, patience);
  }

  lemma LeftAtStart(events: seq<Event>, patience: Option<nat>)
    ensures EndsAt(events, Left(patience, 0)) == EndsAt(events, patience)
  {
  }

  /** Read the events of one admitted attempt, yielding every nonempty delta. */
  method ReadEvents(events: seq<Event>, patience: Option<nat>) returns (tokens: seq<string>, ending: Ending)
    ensures Outcome(tokens, ending) == AttemptOutcome(Attempt(true, events), patience)
  {
    hide SoFar, AttemptOutcome, Deltas, EndsAt;
    tokens := [];
    var n := 0;
    StartsReading(events, patience);
    while n < |events|
      invariant n <= |events| && SoFar(events, patience, n, tokens)
    {
      var event := events[n];
      if event.Delta? {
        if event.text != "" {
          if patience.Some? && |tokens| + 1 >= patience.value {
            StopsHere(events, patience, n, tokens);
            return tokens + [event.text], Closed;
          }
          ReadsOn(events, patience, n, tokens);
          tokens := tokens + [event.text];
        } else {
          ReadsOn(events, patience, n, tokens);
          assert tokens + [] == tokens;
        }
      } else if event.Irrelevant? {
        ReadsOn(events, patience, n, tokens);
        assert tokens + [] == tokens;
      } else {
        StopsHere(events, patience, n, tokens);
        match event {
          case SessionError => return tokens, SessionFailed;
          case IdleEvent => return tokens, Completed;
          case TransportFailure => return tokens, TransportFailed;
          case _ => return tokens, OtherFailed;
        }
      }
      n := n + 1;
    }
    RunsOut(events, patience, tokens);
    ending := TransportFailed;
  }

  /** At most two attempts. A failed first attempt releases its own admission before it asks for the
      client to be replaced; every exit releases an admission still held. */
  method StreamCompletion(lifecycle: Lifecycle, first: Attempt, second: Attempt, patience: Option<nat>)
    returns (tokens: seq<string>, ending: Ending)
    modifies lifecycle
    ensures Outcome(tokens, ending) == StreamOutcome(first, second, patience)
    ensures lifecycle.log == old(lifecycle.log) + StreamCalls(first, second, patience)
  {
    tokens, ending := [], NotAdmitted;
    var attempt := 0;
    while attempt < 2
      invariant attempt <= 2
      invariant attempt == 0 ==> lifecycle.log == old(lifecycle.log)
      invariant attempt == 1 ==> Retries(AttemptOutcome(first, patience)) && lifecycle.log == old(lifecycle.log) + Calls(first) + [ReplaceCall]
      invariant attempt != 2
    {
      var script := if attempt == 0 then first else second;
      if !script.admits {
        return [], NotAdmitted;
      }
      lifecycle.Called(AdmitCall);
      tokens, ending := ReadEvents(script.events, patience);
      assert script == Attempt(true, script.events);
      var yieldedAny := tokens != [];
      if ending != TransportFailed || yieldedAny || attempt == 1 {
        lifecycle.Called(ReleaseCall);
        return;
      }
      lifecycle.Called(ReleaseCall);
      lifecycle.Called(ReplaceCall);
      attempt := attempt + 1;
    }
  }

  // ------------------------------------------------------------------ what it comes to

  predicate IsPrefix(a: seq<string>, b: seq<string>) {
    |a| <= |b| && b[..|a|] == a
  }

  lemma DeltasPrefix(events: seq<Event>, n: nat)
    requires n <= |events|
    ensures IsPrefix(Deltas(events[..n]), Deltas(events))
  {
    assert events == events[..n] + events[n..];
    DeltasConcat(events[..n], events[n..]);
  }

  /** Never spliced: whatever reaches the consumer is the beginning of one single attempt's deltas,
      the second's only if the first yielded nothing. */
  lemma NeverSpliced(first: Attempt, second: Attempt, patience: Option<nat>)
    ensures var tokens := StreamOutcome(first, second, patience).tokens;
      && (IsPrefix(tokens, Deltas(first.events)) || IsPrefix(tokens, Deltas(second.events)))
      && (AttemptOutcome(first, patience).tokens != [] ==> tokens == AttemptOutcome(first, patience).tokens)
  {
    forall a | a == first || a == second ensures IsPrefix(AttemptOutcome(a, patience).tokens, Deltas(a.events)) {
      var n := EndsAt(a.events, patience);
      var ending := EndingOf(a.events, n);
      DeltasPrefix(a.events, if ending == Closed then n + 1 else n);
    }
  }

  predicate ReadOver(e: Event) {
    e.Delta? || e.Irrelevant?
  }

  /** The first event that decides an attempt, or the number of events if none does. */
  function Decision(events: seq<Event>): (n: nat)
    ensures n <= |events| && forall k :: 0 <= k < n ==> ReadOver(events[k])
    ensures n < |events| ==> !ReadOver(events[n])
  {
    if events == [] || !ReadOver(events[0]) then 0 else 1 + Decision(events[1..])
  }

  /** What a consumer that stops listening after so many tokens gets of an attempt: every delta before
      the decision and what the decision means, or its fill of the deltas. */
  function Heard(a: Attempt, patience: Option<nat>): Outcome {
    if !a.admits then Outcome([], NotAdmitted)
    else
      var n := Decision(a.events);
      var all := Deltas(a.events[..n]);
      if all == [] || patience.None? || |all| < patience.value then Outcome(all, EndingOf(a.events, n))
      else Outcome(all[..if patience.value > 1 then patience.value else 1], Closed)
  }

  /** One event less: a token is heard first, anything else read over changes nothing. */
  function Before(e: Event, o: Outcome): Outcome {
    if Token(e) then Outcome([e.text] + o.tokens, o.ending) else o
  }

  function OneLess(patience: Option<nat>, e: Event): Option<nat> {
    if Token(e) && patience.Some? && patience.value > 0 then Some(patience.value - 1) else patience
  }

  predicate FillOf(patience: Option<nat>, e: Event) {
    Token(e) && patience.Some? && patience.value <= 1
  }

  lemma DeltasOfFirst(events: seq<Event>, n: nat)
    requires 0 < n <= |events|
    ensures Deltas(events[..n]) == (if Token(events[0]) then [events[0].text] else []) + Deltas(events[1..][..n - 1])
  {
    assert events[..n][1..] == events[1..][..n - 1];
  }

  lemma AttemptStep(events: seq<Event>, patience: Option<nat>)
    requires events != [] && ReadOver(events[0])
    ensures AttemptOutcome(Attempt(true, events), patience) ==
      if FillOf(patience, events[0]) then Outcome([events[0].text], Closed)
      else Before(events[0], AttemptOutcome(Attempt(true, events[1..]), OneLess(patience, events[0])))
  {
    var rest := events[1..];
    var n := EndsAt(events, patience);
    if FillOf(patience, events[0]) {
      DeltasOfFirst(events, 1);
      assert rest[..0] == [];
    } else {
      var m := EndsAt(rest, OneLess(patience, events[0]));
      assert n == m + 1 && (m < |rest| ==> rest[m] == events[n]);
      var ending := EndingOf(events, n);
      DeltasOfFirst(events, if ending == Closed then n + 1 else n);
    }
  }

  lemma HeardStep(events: seq<Event>, patience: Option<nat>)
    requires events != [] && ReadOver(events[0])
    ensures Heard(Attempt(true, events), patience) ==
      if FillOf(patience, events[0]) then Outcome([events[0].text], Closed)
      else Before(events[0], Heard(Attempt(true, events[1..]), OneLess(patience, events[0])))
  {
    var rest := events[1..];
    var n, m := Decision(events), Decision(rest);
    assert n == m + 1 && (m < |rest| ==> rest[m] == events[n]);
    DeltasOfFirst(events, n);
    var all, later := Deltas(events[..n]), Deltas(rest[..m]);
    hide Deltas, Decision;
    if Token(events[0]) {
      assert all == [events[0].text] + later;
      if patience.Some? && |all| >= patience.value {
        var p := patience.value;
        if p <= 1 {
          assert all[..1] == [events[0].text];
        } else {
          assert later != [] && |later| >= p - 1;
          assert all[..p] == [events[0].text] + later[..p - 1];
        }
      }
    } else {
      assert all == [] + later == later;
    }
  }

  lemma {:induction false} AttemptHeard(a: Attempt, patience: Option<nat>)
    ensures AttemptOutcome(a, patience) == Heard(a, patience)
    decreases |a.events|
  {
    if a.admits {
      if a.events == [] || !ReadOver(a.events[0]) {
        assert a.events[..0] == [];
      } else {
        AttemptStep(a.events, patience);
        HeardStep(a.events, patience);
        AttemptHeard(Attempt(true, a.events[1..]), OneLess(patience, a.events[0]));
        assert a == Attempt(true, a.events);
        hide AttemptOutcome, Heard;
      }
    }
  }

  /** What each deciding event means. */
  lemma EndingIs(events: seq<Event>)
    ensures var n := Decision(events);
      && (EndingOf(events, n) == TransportFailed <==> n == |events| || events[n] == TransportFailure)
      && (EndingOf(events, n) == Completed <==> n < |events| && events[n] == IdleEvent)
      && (EndingOf(events, n) == SessionFailed <==> n < |events| && events[n] == SessionError)
      && (EndingOf(events, n) == OtherFailed <==> n < |events| && events[n] == OtherFailure)
  {
  }

  /** The deltas are the texts of the delta events, in order, without the empty ones. */
  lemma DeltasAre(a: seq<Event>, b: seq<Event>, e: Event)
    ensures Deltas([]) == []
    ensures Deltas([e]) == if e.Delta? && e.text != "" then [e.text] else []
    ensures Deltas(a + b) == Deltas(a) + Deltas(b)
  {
    assert [e][1..] == [];
    DeltasConcat(a, b);
  }

  /** For every consumer and both attempts. A second attempt is made exactly if the first was admitted
      and a transport failure came before any token, so never after a session error; what is heard is
      that of the attempt that counts. A completed stream has delivered every delta up to an idle
      event, a session error is that attempt's, and only the consumer itself cuts a stream short. */
  lemma EndingsMeanWhatTheySay(first: Attempt, second: Attempt, patience: Option<nat>)
    ensures var n := Decision(first.events);
      var retried := first.admits && Deltas(first.events[..n]) == [] && EndingOf(first.events, n) == TransportFailed;
      var a := if retried then second else first;
      var last := Decision(a.events);
      var o := StreamOutcome(first, second, patience);
      && o == Heard(a, patience)
      && StreamCalls(first, second, patience) ==
           (if first.admits then [AdmitCall, ReleaseCall] else [])
           + (if retried then [ReplaceCall] + (if second.admits then [AdmitCall, ReleaseCall] else []) else [])
      && (n < |first.events| && first.events[n] == SessionError ==> !retried)
      && (o.ending == Completed ==> last < |a.events| && a.events[last] == IdleEvent && o.tokens == Deltas(a.events[..last]))
      && (o.ending == SessionFailed ==> last < |a.events| && a.events[last] == SessionError && o.tokens == Deltas(a.events[..last]))
      && (o.ending == Closed ==> patience.Some? && |o.tokens| == if patience.value > 1 then patience.value else 1)
      && (patience.None? && a.admits ==> o == Outcome(Deltas(a.events[..last]), EndingOf(a.events, last)))
  {
    AttemptHeard(first, patience);
    AttemptHeard(second, patience);
    NeverClosed(first.events);
    NeverClosed(second.events);
    hide AttemptOutcome, Deltas, Decision;
    assert Calls(first) + ([ReplaceCall] + Calls(second)) == Calls(first) + [ReplaceCall] + Calls(second);
    assert Calls(first) + [] == Calls(first);
  }

  lemma NeverClosed(events: seq<Event>)
    ensures EndingOf(events, Decision(events)) != Closed && EndingOf(events, Decision(events)) != NotAdmitted
  {
  }

  function Count(log: seq<Call>, c: Call): nat {
    if log == [] then 0 else Count(log[..|log| - 1], c) + if log[|log| - 1] == c then 1 else 0
  }

  /** Admissions and releases balance on every exit, there are at most two of each, and the client is
      asked to be replaced at most once, never while the asking caller holds an admission. */
  lemma AdmissionsBalance(first: Attempt, second: Attempt, patience: Option<nat>, n: nat)
    ensures var log := StreamCalls(first, second, patience);
      && Count(log, AdmitCall) == Count(log, ReleaseCall) <= 2
      && Count(log, ReplaceCall) <= 1
      && (n < |log| && log[n] == ReplaceCall ==> Count(log[..n], AdmitCall) == Count(log[..n], ReleaseCall))
  {
    hide AttemptOutcome, Count;
    var one, three, five := [AdmitCall, ReleaseCall], [AdmitCall, ReleaseCall, ReplaceCall],
      [AdmitCall, ReleaseCall, ReplaceCall, AdmitCall, ReleaseCall];
    var log := StreamCalls(first, second, patience);
    NotAdmittedNeverRetries(first, patience);
    assert one + [ReplaceCall] + [] == three && one + [ReplaceCall] + one == five;
    assert log == [] || log == one || log == three || log == five;
    forall c ensures Count([], c) == 0 && Count(one, c) == (if c == ReplaceCall then 0 else 1) {
      CountNothing(c);
      CountPair(c);
    }
    forall c ensures Count(three, c) == 1 && Count(five, c) == (if c == ReplaceCall then 1 else 2) {
      CountRetry(c);
    }
    assert n < |log| && log[n] == ReplaceCall ==> n == 2 && log[..2] == one;
  }

  /** A second attempt presupposes an admitted first one. */
  lemma NotAdmittedNeverRetries(a: Attempt, patience: Option<nat>)
    ensures Retries(AttemptOutcome(a, patience)) ==> a.admits
  {
    hide EndsAt, EndingOf, Deltas;
  }

  lemma CountNothing(c: Call)
    ensures Count([], c) == 0
  {
  }

  lemma CountPair(c: Call)
    ensures Count([AdmitCall, ReleaseCall], c) == if c == ReplaceCall then 0 else 1
  {
    var l1, l2 := [AdmitCall], [AdmitCall, ReleaseCall];
    assert l2[..1] == l1 && l1[..0] == [];
    assert Count(l1, c) == if c == AdmitCall then 1 else 0;
  }

  lemma CountRetry(c: Call)
    ensures Count([AdmitCall, ReleaseCall, ReplaceCall], c) == 1
    ensures Count([AdmitCall, ReleaseCall, ReplaceCall, AdmitCall, ReleaseCall], c) == if c == ReplaceCall then 1 else 2
  {
    var l2, l3, l4, l5 := [AdmitCall, ReleaseCall], [AdmitCall, ReleaseCall, ReplaceCall],
      [AdmitCall, ReleaseCall, ReplaceCall, AdmitCall], [AdmitCall, ReleaseCall, ReplaceCall, AdmitCall, ReleaseCall];
    CountPair(c);
    assert l5[..4] == l4 && l4[..3] == l3 && l3[..2] == l2;
    assert Count(l3, c) == 1;
    assert Count(l4, c) == 1 + if c == AdmitCall then 1 else 0;
  }
}
