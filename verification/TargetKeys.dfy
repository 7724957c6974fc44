/** The keys under which generation leases are held, and the text each key is stored as.

    `generation_lease.target_key` is a UNIQUE text column. The model's lease table is keyed by
    `Key` instead; `RenderInjective` is what makes the two uniqueness rules the same rule. */
module TargetKeys {

  datatype Key =
    | EntryKey(entryId: int)
    | ReportKey
    | EntryThreadKey(entryId: int)
    | ConversationKey(sessionId: int)
    | RequestKey(token: string)

  function Digit(d: int): (c: char)
    requires 0 <= d < 10
    ensures '0' <= c <= '9'
  {
    '0' + d as char
  }

  function Natural(n: nat): (s: string)
    ensures |s| > 0
    ensures forall i :: 0 <= i < |s| ==> '0' <= s[i] <= '9'
  {
    if n < 10 then [Digit(n)] else Natural(n / 10) + [Digit(n % 10)]
  }

  /** An integer as an f-string prints it. */
  function Decimal(n: int): (s: string)
    ensures |s| > 0
    ensures forall i :: 0 <= i < |s| ==> '0' <= s[i] <= '9' || s[i] == '-'
  {
    if n < 0 then "-" + Natural(-n) else Natural(n)
  }

  lemma {:induction false} NaturalInjective(a: nat, b: nat)
    requires Natural(a) == Natural(b)
    ensures a == b
  {
    var s, t := Natural(a), Natural(b);
    assert s[|s| - 1] == Digit(a % 10) && t[|t| - 1] == Digit(b % 10);
    if a >= 10 && b >= 10 {
      assert s[..|s| - 1] == Natural(a / 10) && t[..|t| - 1] == Natural(b / 10);
      NaturalInjective(a / 10, b / 10);
    }
  }

  lemma DecimalInjective(a: int, b: int)
    requires Decimal(a) == Decimal(b)
    ensures a == b
  {
    if a < 0 {
      assert Decimal(a)[0] == '-' && Decimal(a)[1..] == Natural(-a);
    } else {
      assert Decimal(a)[0] != '-';
    }
    if b < 0 {
      assert Decimal(b)[0] == '-' && Decimal(b)[1..] == Natural(-b);
      NaturalInjective(-a, -b);
    } else {
      NaturalInjective(a, b);
    }
  }

  /** A decimal numeral read from the left. */
  function ValueOf(digits: string): int
    requires forall i :: 0 <= i < |digits| ==> '0' <= digits[i] <= '9'
  {
    if digits == "" then 0 else ValueOf(digits[..|digits| - 1]) * 10 + (digits[|digits| - 1] as int - '0' as int)
  }

  /** The digits denote the number, without leading zeros. */
  lemma {:induction false} NaturalDenotes(n: nat)
    ensures ValueOf(Natural(n)) == n
    ensures |Natural(n)| > 1 ==> Natural(n)[0] != '0'
    ensures |Natural(n)| == 1 ==> n < 10
  {
    var s := Natural(n);
    if n < 10 {
      assert s[..0] == "";
    } else {
      NaturalDenotes(n / 10);
      assert s[..|s| - 1] == Natural(n / 10);
      if |Natural(n / 10)| == 1 {
        assert Natural(n / 10) == [Digit(n / 10)];
      }
    }
  }

  function Prefix(key: Key): string {
    match key
    case EntryKey(_) => "entry:"
    case ReportKey => "report"
    case EntryThreadKey(_) => "entry-thread:"
    case ConversationKey(_) => "conversation:"
    case RequestKey(_) => "request:"
  }

  function Suffix(key: Key): string {
    match key
    case EntryKey(id) => Decimal(id)
    case ReportKey => ""
    case EntryThreadKey(id) => Decimal(id)
    case ConversationKey(id) => Decimal(id)
    case RequestKey(token) => token
  }

  function Render(key: Key): string {
    Prefix(key) + Suffix(key)
  }

  /** The text of a key determines its prefix: "entry:" and "entry-thread:" part at the sixth
      character, "report" and "request:" at the third, the rest at the first. */
  lemma RenderPrefix(a: Key, b: Key)
    requires Render(a) == Render(b)
    ensures Prefix(a) == Prefix(b)
  {
    var s := Render(a);
    assert s[0] == Prefix(a)[0] == Prefix(b)[0];
    assert s[2] == Prefix(a)[2] == Prefix(b)[2];
    assert s[5] == Prefix(a)[5] == Prefix(b)[5];
  }

  /** Distinct targets have distinct lease keys, as text, whatever the ids and tokens are. */
  lemma RenderInjective(a: Key, b: Key)
    ensures Render(a) == Render(b) <==> a == b
  {
    if Render(a) == Render(b) {
      RenderPrefix(a, b);
      var n := |Prefix(a)|;
      assert Suffix(a) == Render(a)[n..] == Render(b)[n..] == Suffix(b);
      if a.EntryKey? || a.EntryThreadKey? || a.ConversationKey? {
        match a {
          case EntryKey(id) => DecimalInjective(id, b.entryId);
          case EntryThreadKey(id) => DecimalInjective(id, b.entryId);
          case ConversationKey(id) => DecimalInjective(id, b.sessionId);
          case _ =>
        }
      }
    }
  }
}
