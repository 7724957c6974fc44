/** The context budget: a conservative token estimate of a prepared request against the model's
    published limit. The 1.15 safety margin, computed in doubles, is a parameter known to lie
    between the raw estimate and 23/20 of it. */
module Budget {
  import opened Tables

  function Utf8Width(c: char): (n: nat)
    ensures 1 <= n <= 4
  {
    var code := c as int;
    if code < 0x80 then 1 else if code < 0x800 then 2 else if code < 0x10000 then 3 else 4
  }

  /** A character's UTF-8 form (RFC 3629, section 3). */
  function Utf8(c: char): (bytes: seq<int>)
    ensures forall i :: 0 <= i < |bytes| ==> 0 <= bytes[i] < 0x100
  {
    var n := c as int;
    if n < 0x80 then [n]
    else if n < 0x800 then [0xC0 + n / 0x40, 0x80 + n % 0x40]
    else if n < 0x10000 then [0xE0 + n / 0x1000, 0x80 + n / 0x40 % 0x40, 0x80 + n % 0x40]
    else [0xF0 + n / 0x40000, 0x80 + n / 0x1000 % 0x40, 0x80 + n / 0x40 % 0x40, 0x80 + n % 0x40]
  }

  /** The code point of the form at the front: the first byte tells how many follow. */
  function FromUtf8(bytes: seq<int>): int
    requires bytes != [] && 0 <= bytes[0] < 0x100
    requires |bytes| >= if bytes[0] < 0x80 then 1 else if bytes[0] < 0xE0 then 2 else if bytes[0] < 0xF0 then 3 else 4
  {
    if bytes[0] < 0x80 then bytes[0]
    else if bytes[0] < 0xE0 then (bytes[0] - 0xC0) * 0x40 + (bytes[1] - 0x80)
    else if bytes[0] < 0xF0 then ((bytes[0] - 0xE0) * 0x40 + (bytes[1] - 0x80)) * 0x40 + (bytes[2] - 0x80)
    else (((bytes[0] - 0xF0) * 0x40 + (bytes[1] - 0x80)) * 0x40 + (bytes[2] - 0x80)) * 0x40 + (bytes[3] - 0x80)
  }

  /** The width is the length of a form that can be read back. */
  lemma Utf8WidthIsRight(c: char)
    ensures |Utf8(c)| == Utf8Width(c)
    ensures Utf8(c)[0] < (if Utf8Width(c) == 1 then 0x80 else if Utf8Width(c) == 2 then 0xE0 else if Utf8Width(c) == 3 then 0xF0 else 0xF8)
    ensures Utf8(c)[0] >= (if Utf8Width(c) == 1 then 0 else if Utf8Width(c) == 2 then 0xC0 else if Utf8Width(c) == 3 then 0xE0 else 0xF0)
    ensures FromUtf8(Utf8(c)) == c as int
  {
    var n := c as int;
    assert n / 0x1000 == n / 0x40 / 0x40 && n / 0x40000 == n / 0x1000 / 0x40;
  }

  function Utf8Text(text: string): seq<int> {
    if text == "" then [] else Utf8(text[0]) + Utf8Text(text[1..])
  }

  lemma {:induction false} Utf8LengthIsRight(text: string)
    ensures Utf8Length(text) == |Utf8Text(text)|
  {
    if text != "" {
      Utf8WidthIsRight(text[0]);
      Utf8LengthIsRight(text[1..]);
    }
  }

  /** `len(text.encode("utf-8"))`. */
  function Utf8Length(text: string): (n: nat)
    ensures n >= |text|
  {
    if text == "" then 0 else Utf8Width(text[0]) + Utf8Length(text[1..])
  }

  /** Two bytes a token, rounded up. The source's `max(1, ...)` never takes effect: a nonempty text
      has a byte, and half of it rounds up to 1. */
  function EstimateTokens(text: string): (n: nat)
    ensures n == 0 <==> text == ""
  {
    if text == "" then 0 else (Utf8Length(text) + 1) / 2
  }

  /** The margined estimate of a raw one. */
  type Margin = nat -> nat

  ghost predicate MarginOk(margin: Margin) {
    && (forall raw: nat :: raw <= margin(raw))
    && (forall raw: nat :: 20 * margin(raw) <= 23 * raw)
    && (forall raw: nat, more: nat :: raw <= more ==> margin(raw) <= margin(more))
  }

  datatype BudgetError = ModelLimitsUnavailable | ContextTooLarge(estimated: nat, limit: int)

  function EstimateEnvelope(system: string, user: string): nat {
    EstimateTokens(system) + EstimateTokens(user)
  }

  function Preflight(margin: Margin, system: string, user: string, limit: Option<int>): Result<nat, BudgetError> {
    if limit.None? || limit.value <= 0 then Failure(ModelLimitsUnavailable)
    else
      var estimate := margin(EstimateEnvelope(system, user));
      if estimate > limit.value then Failure(ContextTooLarge(estimate, limit.value)) else Success(estimate)
  }

  /** Which refusal is given, with which numbers: no usable limit, or a margined estimate above it. A
      request on the limit is accepted. */
  lemma PreflightIs(margin: Margin, system: string, user: string, limit: Option<int>, estimate: nat, bound: int)
    ensures Preflight(margin, system, user, limit) == Failure(ModelLimitsUnavailable) <==> limit.None? || limit.value <= 0
    ensures Preflight(margin, system, user, limit) == Failure(ContextTooLarge(estimate, bound)) <==>
      limit == Some(bound) && 0 < bound < estimate && estimate == margin(EstimateTokens(system) + EstimateTokens(user))
    ensures Preflight(margin, system, user, limit) == Success(estimate) <==>
      limit.Some? && estimate <= limit.value && 0 < limit.value && estimate == margin(EstimateTokens(system) + EstimateTokens(user))
  {
    hide EstimateTokens;
  }

  lemma {:induction false} Utf8LengthConcat(a: string, b: string)
    ensures Utf8Length(a + b) == Utf8Length(a) + Utf8Length(b)
  {
    if a == "" {
      assert a + b == b;
    } else {
      assert (a + b)[1..] == a[1..] + b;
      Utf8LengthConcat(a[1..], b);
    }
  }

  /** The estimate is monotone under appending and within one token of additive. */
  lemma EstimateNearlyAdditive(a: string, b: string)
    ensures EstimateTokens(a) <= EstimateTokens(a + b) && EstimateTokens(b) <= EstimateTokens(a + b)
    ensures EstimateTokens(a + b) <= EstimateTokens(a) + EstimateTokens(b) <= EstimateTokens(a + b) + 1
  {
    Utf8LengthConcat(a, b);
    if a == "" {
      assert a + b == b;
    }
    if b == "" {
      assert a + b == a;
    }
  }

  lemma EstimateCoversBytes(text: string)
    ensures Utf8Length(text) <= 2 * EstimateTokens(text) <= Utf8Length(text) + 1
  {
  }

  /** An accepted request is at most twice its limit in bytes; the margined estimate that is
      reported is within the limit and never below the raw one. */
  lemma AcceptedFits(margin: Margin, system: string, user: string, limit: Option<int>)
    requires MarginOk(margin) && Preflight(margin, system, user, limit).Success?
    ensures limit.Some? && Utf8Length(system) + Utf8Length(user) <= 2 * limit.value
    ensures EstimateEnvelope(system, user) <= Preflight(margin, system, user, limit).value <= limit.value
  {
    EstimateCoversBytes(system);
    EstimateCoversBytes(user);
    assert EstimateEnvelope(system, user) <= margin(EstimateEnvelope(system, user));
  }

  /** What is refused as too large really is, margin included: anything that fits with 15 percent to
      spare is accepted. */
  lemma RoomyRequestsAreAccepted(margin: Margin, system: string, user: string, limit: int)
    requires MarginOk(margin) && limit > 0
    ensures 23 * EstimateEnvelope(system, user) < 20 * (limit + 1) ==> Preflight(margin, system, user, Some(limit)).Success?
    ensures EstimateEnvelope(system, user) > limit ==> Preflight(margin, system, user, Some(limit)).Failure?
  {
    var raw := EstimateEnvelope(system, user);
    assert 20 * margin(raw) <= 23 * raw && raw <= margin(raw);
  }

  /** Growing a refused request, on either side, never makes it acceptable. */
  lemma GrowingNeverHelps(margin: Margin, system: string, user: string, moreSystem: string, moreUser: string, limit: Option<int>)
    requires MarginOk(margin) && Preflight(margin, system, user, limit).Failure?
    ensures Preflight(margin, system + moreSystem, user + moreUser, limit).Failure?
  {
    EstimateNearlyAdditive(system, moreSystem);
    EstimateNearlyAdditive(user, moreUser);
    assert EstimateEnvelope(system, user) <= EstimateEnvelope(system + moreSystem, user + moreUser);
  }
}
