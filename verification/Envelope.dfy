/** The prepared request envelope, its canonical JSON form (RFC 8259, ASCII only, sorted keys, no
    white space) and the stored identity derived from it.

    Text is a sequence of Unicode scalar values, as a `char` is here. SHA-256 is a parameter. */
module Envelope {
  import opened Tables
  import opened TargetKeys

  const ASSEMBLY_VERSION := 3

  datatype RequestEnvelope = RequestEnvelope(
    assemblyVersion: int, systemMode: string, systemContent: string, userContent: string, model: string,
    availableTools: seq<string>, workingDirectory: string, skipCustomInstructions: bool,
    enableConfigDiscovery: bool, enableSkills: bool, streaming: bool,
    targetKind: string, targetId: Option<string>)

  function BuildEnvelope(system: string, user: string, model: string, kind: string, id: Option<int>): RequestEnvelope {
    RequestEnvelope(ASSEMBLY_VERSION, "replace", system, user, model, [], "/tmp", true, false, false, true, kind,
                    if id.Some? then Some(Decimal(id.value)) else None)
  }

  // ------------------------------------------------------------------ JSON text

  function HexDigit(d: int): (c: char)
    requires 0 <= d < 16
    ensures c != '\\' && c != '"'
  {
    if d < 10 then '0' + d as char else 'a' + (d - 10) as char
  }

  /** One UTF-16 code unit as `\uXXXX`. */
  function Unit(n: int): (s: string)
    requires 0 <= n < 0x10000
    ensures |s| == 6 && s[0] == '\\' && s[1] == 'u'
  {
    ['\\', 'u', HexDigit(n / 0x1000), HexDigit(n / 0x100 % 0x10), HexDigit(n / 0x10 % 0x10), HexDigit(n % 0x10)]
  }

  function High(n: int): (u: int)
    requires 0x10000 <= n < 0x110000
    ensures 0xD800 <= u < 0xDC00
  {
    0xD800 + (n - 0x10000) / 0x400
  }

  function Low(n: int): (u: int)
    requires 0x10000 <= n < 0x110000
    ensures 0xDC00 <= u < 0xE000
  {
    0xDC00 + (n - 0x10000) % 0x400
  }

  /** One character inside a JSON string, with everything outside printable ASCII escaped. */
  function Escaped(c: char): string {
    match c
    case '\\' => "\\\\"
    case '"' => "\\\""
    case '\n' => "\\n"
    case '\r' => "\\r"
    case '\t' => "\\t"
    case _ =>
      var n := c as int;
      if n == 8 then "\\b"
      else if n == 12 then "\\f"
      else if 32 <= n <= 126 then [c]
      else if n < 0x10000 then Unit(n)
      else Unit(High(n)) + Unit(Low(n))
  }

  function EscapedAll(s: string): string {
    if s == "" then "" else Escaped(s[0]) + EscapedAll(s[1..])
  }

  /** Escapes stand in the order of their characters. */
  lemma {:induction false} EscapesInOrder(a: string, b: string, c: char)
    ensures EscapedAll([c]) == Escaped(c)
    ensures EscapedAll(a + b) == EscapedAll(a) + EscapedAll(b)
  {
    hide Escaped;
    assert [c][1..] == "";
    assert Escaped(c) + "" == Escaped(c);
    if a == "" {
      assert a + b == b;
    } else {
      assert (a + b)[1..] == a[1..] + b;
      EscapesInOrder(a[1..], b, c);
    }
  }

  function Quoted(s: string): string {
    "\"" + EscapedAll(s) + "\""
  }

  function Flag(b: bool): string {
    if b then "true" else "false"
  }

  function TextOrNull(t: Option<string>): string {
    match t
    case None => "null"
    case Some(s) => Quoted(s)
  }

  /** The rest of a JSON array of strings, from the element at hand to the closing bracket. */
  function Elements(items: seq<string>): string {
    if items == [] then "]"
    else Quoted(items[0]) + (if |items| == 1 then "]" else "," + Elements(items[1..]))
  }

  /** A member's key, up to its value. */
  function Named(key: string): string {
    "\"" + key + "\":"
  }

  function Next(key: string): string {
    "," + Named(key)
  }

  // the members, in key order, each followed by the rest of the object
  function FromWorkingDirectory(e: RequestEnvelope): string {
    Next("working_directory") + Quoted(e.workingDirectory) + "}"
  }

  function FromUserContent(e: RequestEnvelope): string {
    Next("user_content") + Quoted(e.userContent) + FromWorkingDirectory(e)
  }

  function FromTargetKind(e: RequestEnvelope): string {
    Next("target_kind") + Quoted(e.targetKind) + FromUserContent(e)
  }

  function FromTargetId(e: RequestEnvelope): string {
    Next("target_id") + TextOrNull(e.targetId) + FromTargetKind(e)
  }

  function FromSystemMode(e: RequestEnvelope): string {
    Next("system_mode") + Quoted(e.systemMode) + FromTargetId(e)
  }

  function FromSystemContent(e: RequestEnvelope): string {
    Next("system_content") + Quoted(e.systemContent) + FromSystemMode(e)
  }

  function FromStreaming(e: RequestEnvelope): string {
    Next("streaming") + Flag(e.streaming) + FromSystemContent(e)
  }

  function FromSkip(e: RequestEnvelope): string {
    Next("skip_custom_instructions") + Flag(e.skipCustomInstructions) + FromStreaming(e)
  }

  function FromModel(e: RequestEnvelope): string {
    Next("model") + Quoted(e.model) + FromSkip(e)
  }

  function FromSkills(e: RequestEnvelope): string {
    Next("enable_skills") + Flag(e.enableSkills) + FromModel(e)
  }

  function FromDiscovery(e: RequestEnvelope): string {
    Next("enable_config_discovery") + Flag(e.enableConfigDiscovery) + FromSkills(e)
  }

  function FromTools(e: RequestEnvelope): string {
    Next("available_tools") + "[" + Elements(e.availableTools) + FromDiscovery(e)
  }

  function CanonicalJson(e: RequestEnvelope): string {
    "{" + Named("assembly_version") + Decimal(e.assemblyVersion) + FromTools(e)
  }

  // ------------------------------------------------------------------ every part can be read back

  lemma Peel(prefix: string, a: string, b: string)
    requires prefix + a == prefix + b
    ensures a == b
  {
    assert a == (prefix + a)[|prefix|..] == (prefix + b)[|prefix|..] == b;
  }

  lemma Nibbles(n: int)
    requires 0 <= n < 0x10000
    ensures n == (n / 0x1000) * 0x1000 + (n / 0x100 % 0x10) * 0x100 + (n / 0x10 % 0x10) * 0x10 + n % 0x10
    ensures 0 <= n / 0x1000 < 16
  {
    assert n / 0x100 == (n / 0x1000) * 0x10 + n / 0x100 % 0x10;
    assert n / 0x10 == (n / 0x100) * 0x10 + n / 0x10 % 0x10;
    assert n == (n / 0x10) * 0x10 + n % 0x10;
  }

  lemma Hex4Injective(m: int, n: int)
    requires 0 <= m < 0x10000 && 0 <= n < 0x10000 && Unit(m) == Unit(n)
    ensures m == n
  {
    var s, t := Unit(m), Unit(n);
    assert s[2] == t[2] && s[3] == t[3] && s[4] == t[4] && s[5] == t[5];
    Nibbles(m);
    Nibbles(n);
    HexDigitInjective(m / 0x1000, n / 0x1000);
    HexDigitInjective(m / 0x100 % 0x10, n / 0x100 % 0x10);
    HexDigitInjective(m / 0x10 % 0x10, n / 0x10 % 0x10);
    HexDigitInjective(m % 0x10, n % 0x10);
    hide Unit, HexDigit;
  }

  lemma HexDigitInjective(d: int, e: int)
    requires 0 <= d < 16 && 0 <= e < 16 && HexDigit(d) == HexDigit(e)
    ensures d == e
  {
  }

  /** The code unit a character's escape starts with: its own, or its high surrogate. */
  function FirstUnit(n: int): (u: int)
    requires 0 <= n < 0x110000
    ensures 0 <= u < 0x10000
  {
    if n < 0x10000 then n else High(n)
  }

  predicate ByUnits(c: char) {
    var n := c as int;
    n > 126 || (n < 32 && n != 8 && n != 9 && n != 10 && n != 12 && n != 13)
  }

  lemma UnitForm(c: char)
    requires ByUnits(c)
    ensures Escaped(c) == if c as int < 0x10000 then Unit(c as int) else Unit(High(c as int)) + Unit(Low(c as int))
    ensures |Escaped(c)| >= 6 && Escaped(c)[..6] == Unit(FirstUnit(c as int))
  {
  }

  lemma ShortForm(c: char)
    requires !ByUnits(c)
    ensures
      || (Escaped(c) == [c] && c != '\\' && c != '"')
      || (|Escaped(c)| == 2 && Escaped(c)[0] == '\\' && Escaped(c)[1] != 'u')
  {
  }

  /** An escape starts neither with a quote nor, unless it is one, with a backslash. */
  lemma EscapeHead(c: char)
    ensures |Escaped(c)| > 0 && Escaped(c)[0] != '"'
  {
    if ByUnits(c) {
      UnitForm(c);
    } else {
      ShortForm(c);
    }
  }

  lemma UnitsReadBack(c: char, d: char, x: string, y: string)
    requires ByUnits(c) && ByUnits(d) && Escaped(c) + x == Escaped(d) + y
    ensures c == d && x == y
  {
    UnitForm(c);
    UnitForm(d);
    var m, n := c as int, d as int;
    assert Escaped(c)[..6] == (Escaped(c) + x)[..6] == (Escaped(d) + y)[..6] == Escaped(d)[..6];
    Hex4Injective(FirstUnit(m), FirstUnit(n));
    if m >= 0x10000 && n >= 0x10000 {
      assert Unit(Low(m)) == (Escaped(c) + x)[6..12] == (Escaped(d) + y)[6..12] == Unit(Low(n));
      Hex4Injective(Low(m), Low(n));
      assert (m - 0x10000) / 0x400 == (n - 0x10000) / 0x400;
      assert m == n;
    } else {
      assert m == n;
    }
    assert c == d;
    Peel(Escaped(c), x, y);
  }

  lemma EscapeReadsBack(c: char, d: char, x: string, y: string)
    requires Escaped(c) + x == Escaped(d) + y
    ensures c == d && x == y
  {
    if ByUnits(c) && ByUnits(d) {
      UnitsReadBack(c, d, x, y);
    } else {
      var s, t := Escaped(c) + x, Escaped(d) + y;
      if ByUnits(c) { UnitForm(c); } else { ShortForm(c); }
      if ByUnits(d) { UnitForm(d); } else { ShortForm(d); }
      assert s[0] == Escaped(c)[0] && t[0] == Escaped(d)[0];
      if |Escaped(c)| > 1 { assert s[1] == Escaped(c)[1]; }
      if |Escaped(d)| > 1 { assert t[1] == Escaped(d)[1]; }
      assert !ByUnits(c) && !ByUnits(d);
      ShortInjective(c, d);
      Peel(Escaped(c), x, y);
    }
  }

  lemma ShortInjective(c: char, d: char)
    requires !ByUnits(c) && !ByUnits(d) && Escaped(c)[0] == Escaped(d)[0]
    requires |Escaped(c)| == |Escaped(d)| && (|Escaped(c)| > 1 ==> Escaped(c)[1] == Escaped(d)[1])
    ensures c == d
  {
  }

  /** A quoted text ends where it ends: text and remainder are both determined. */
  lemma {:induction false} TextReadsBack(a: string, b: string, x: string, y: string)
    requires EscapedAll(a) + "\"" + x == EscapedAll(b) + "\"" + y
    ensures a == b && x == y
  {
    hide Escaped;
    var s, t := EscapedAll(a) + "\"" + x, EscapedAll(b) + "\"" + y;
    if a != "" {
      EscapeHead(a[0]);
      assert s == Escaped(a[0]) + (EscapedAll(a[1..]) + "\"" + x);
      assert s[0] == Escaped(a[0])[0];
    }
    if b != "" {
      EscapeHead(b[0]);
      assert t == Escaped(b[0]) + (EscapedAll(b[1..]) + "\"" + y);
      assert t[0] == Escaped(b[0])[0];
    }
    if a == "" || b == "" {
      assert a == b;
      Peel("\"", x, y) by { assert s == "\"" + x && t == "\"" + y; }
    } else {
      EscapeReadsBack(a[0], b[0], EscapedAll(a[1..]) + "\"" + x, EscapedAll(b[1..]) + "\"" + y);
      TextReadsBack(a[1..], b[1..], x, y);
      assert a == [a[0]] + a[1..] && b == [b[0]] + b[1..];
    }
  }

  lemma QuotedReadsBack(a: string, b: string, x: string, y: string)
    requires Quoted(a) + x == Quoted(b) + y
    ensures a == b && x == y
  {
    assert Quoted(a) + x == "\"" + (EscapedAll(a) + "\"" + x);
    assert Quoted(b) + y == "\"" + (EscapedAll(b) + "\"" + y);
    Peel("\"", EscapedAll(a) + "\"" + x, EscapedAll(b) + "\"" + y);
    TextReadsBack(a, b, x, y);
  }

  lemma FlagReadsBack(a: bool, b: bool, x: string, y: string)
    requires Flag(a) + x == Flag(b) + y
    ensures a == b && x == y
  {
    assert (Flag(a) + x)[0] == Flag(a)[0] && (Flag(b) + y)[0] == Flag(b)[0];
    Peel(Flag(a), x, y);
  }

  /** Absent and the text "null" are different values. */
  lemma TextOrNullReadsBack(a: Option<string>, b: Option<string>, x: string, y: string)
    requires TextOrNull(a) + x == TextOrNull(b) + y
    ensures a == b && x == y
  {
    assert (TextOrNull(a) + x)[0] == TextOrNull(a)[0] && (TextOrNull(b) + y)[0] == TextOrNull(b)[0];
    if a.Some? && b.Some? {
      QuotedReadsBack(a.value, b.value, x, y);
    } else {
      assert a == b;
      Peel("null", x, y);
    }
  }

  lemma ElementsHead(items: seq<string>)
    ensures Elements(items) != "" && (Elements(items)[0] == ']' <==> items == [])
  {
    if items != [] {
      assert Quoted(items[0])[0] == '"';
    }
  }

  lemma {:induction false} ElementsReadBack(a: seq<string>, b: seq<string>, x: string, y: string)
    requires Elements(a) + x == Elements(b) + y
    ensures a == b && x == y
  {
    var s, t := Elements(a) + x, Elements(b) + y;
    ElementsHead(a);
    ElementsHead(b);
    hide Quoted;
    assert s[0] == Elements(a)[0] && t[0] == Elements(b)[0];
    if a == [] || b == [] {
      assert a == b;
      Peel("]", x, y);
    } else {
      var restA := (if |a| == 1 then "]" else "," + Elements(a[1..])) + x;
      var restB := (if |b| == 1 then "]" else "," + Elements(b[1..])) + y;
      assert s == Quoted(a[0]) + restA && t == Quoted(b[0]) + restB;
      QuotedReadsBack(a[0], b[0], restA, restB);
      assert restA[0] == restB[0];
      if |a| == 1 {
        assert |b| == 1;
        Peel("]", x, y);
        assert a == [a[0]] && b == [b[0]];
      } else {
        assert restA == "," + (Elements(a[1..]) + x) && restB == "," + (Elements(b[1..]) + y);
        Peel(",", Elements(a[1..]) + x, Elements(b[1..]) + y);
        ElementsReadBack(a[1..], b[1..], x, y);
        assert a == [a[0]] + a[1..] && b == [b[0]] + b[1..];
      }
    }
  }

  /** A number ends at the first character that is neither digit nor sign. */
  lemma DecimalReadsBack(m: int, n: int, x: string, y: string)
    requires x != "" && y != "" && x[0] == ',' && y[0] == ','
    requires Decimal(m) + x == Decimal(n) + y
    ensures m == n && x == y
  {
    var s, t := Decimal(m) + x, Decimal(n) + y;
    assert s[|Decimal(m)|] == ',' && t[|Decimal(n)|] == ',';
    assert forall k :: 0 <= k < |Decimal(m)| ==> s[k] == Decimal(m)[k] != ',';
    assert forall k :: 0 <= k < |Decimal(n)| ==> t[k] == Decimal(n)[k] != ',';
    assert |Decimal(m)| == |Decimal(n)|;
    assert Decimal(m) == s[..|Decimal(m)|] == t[..|Decimal(n)|] == Decimal(n);
    DecimalInjective(m, n);
    Peel(Decimal(m), x, y);
  }

  // ------------------------------------------------------------------ the canonical form is injective

  lemma QuotedMember(key: string, a: string, b: string, x: string, y: string)
    requires key + Quoted(a) + x == key + Quoted(b) + y
    ensures a == b && x == y
  {
    assert key + Quoted(a) + x == key + (Quoted(a) + x) && key + Quoted(b) + y == key + (Quoted(b) + y);
    Peel(key, Quoted(a) + x, Quoted(b) + y);
    QuotedReadsBack(a, b, x, y);
  }

  lemma FlagMember(key: string, a: bool, b: bool, x: string, y: string)
    requires key + Flag(a) + x == key + Flag(b) + y
    ensures a == b && x == y
  {
    assert key + Flag(a) + x == key + (Flag(a) + x) && key + Flag(b) + y == key + (Flag(b) + y);
    Peel(key, Flag(a) + x, Flag(b) + y);
    FlagReadsBack(a, b, x, y);
  }

  /** The members from "system_content" to the end. */
  lemma TextMembers(e: RequestEnvelope, f: RequestEnvelope)
    requires FromSystemContent(e) == FromSystemContent(f)
    ensures e.systemContent == f.systemContent && e.systemMode == f.systemMode && e.targetId == f.targetId
    ensures e.targetKind == f.targetKind && e.userContent == f.userContent && e.workingDirectory == f.workingDirectory
  {
    hide Quoted, TextOrNull;
    QuotedMember(Next("system_content"), e.systemContent, f.systemContent, FromSystemMode(e), FromSystemMode(f));
    QuotedMember(Next("system_mode"), e.systemMode, f.systemMode, FromTargetId(e), FromTargetId(f));
    var key := Next("target_id");
    assert key + TextOrNull(e.targetId) + FromTargetKind(e) == key + (TextOrNull(e.targetId) + FromTargetKind(e));
    assert key + TextOrNull(f.targetId) + FromTargetKind(f) == key + (TextOrNull(f.targetId) + FromTargetKind(f));
    Peel(key, TextOrNull(e.targetId) + FromTargetKind(e), TextOrNull(f.targetId) + FromTargetKind(f));
    TextOrNullReadsBack(e.targetId, f.targetId, FromTargetKind(e), FromTargetKind(f));
    QuotedMember(Next("target_kind"), e.targetKind, f.targetKind, FromUserContent(e), FromUserContent(f));
    QuotedMember(Next("user_content"), e.userContent, f.userContent, FromWorkingDirectory(e), FromWorkingDirectory(f));
    QuotedMember(Next("working_directory"), e.workingDirectory, f.workingDirectory, "}", "}");
  }

  /** The members from "enable_config_discovery" to "streaming". */
  lemma OptionMembers(e: RequestEnvelope, f: RequestEnvelope)
    requires FromDiscovery(e) == FromDiscovery(f)
    ensures e.enableConfigDiscovery == f.enableConfigDiscovery && e.enableSkills == f.enableSkills && e.model == f.model
    ensures e.skipCustomInstructions == f.skipCustomInstructions && e.streaming == f.streaming
    ensures FromSystemContent(e) == FromSystemContent(f)
  {
    hide Quoted, Flag, FromSystemContent;
    FlagMember(Next("enable_config_discovery"), e.enableConfigDiscovery, f.enableConfigDiscovery, FromSkills(e), FromSkills(f));
    FlagMember(Next("enable_skills"), e.enableSkills, f.enableSkills, FromModel(e), FromModel(f));
    QuotedMember(Next("model"), e.model, f.model, FromSkip(e), FromSkip(f));
    FlagMember(Next("skip_custom_instructions"), e.skipCustomInstructions, f.skipCustomInstructions, FromStreaming(e), FromStreaming(f));
    FlagMember(Next("streaming"), e.streaming, f.streaming, FromSystemContent(e), FromSystemContent(f));
  }

  lemma ToolsMember(e: RequestEnvelope, f: RequestEnvelope)
    requires FromTools(e) == FromTools(f)
    ensures e.availableTools == f.availableTools && FromDiscovery(e) == FromDiscovery(f)
  {
    hide FromDiscovery, Elements;
    var key := Next("available_tools") + "[";
    assert FromTools(e) == key + (Elements(e.availableTools) + FromDiscovery(e));
    assert FromTools(f) == key + (Elements(f.availableTools) + FromDiscovery(f));
    Peel(key, Elements(e.availableTools) + FromDiscovery(e), Elements(f.availableTools) + FromDiscovery(f));
    ElementsReadBack(e.availableTools, f.availableTools, FromDiscovery(e), FromDiscovery(f));
  }

  lemma ToolsComeFirst(e: RequestEnvelope)
    ensures FromTools(e) != "" && FromTools(e)[0] == ','
  {
    hide FromDiscovery, Elements;
  }

  lemma VersionMember(e: RequestEnvelope, f: RequestEnvelope)
    requires CanonicalJson(e) == CanonicalJson(f)
    ensures e.assemblyVersion == f.assemblyVersion && FromTools(e) == FromTools(f)
  {
    ToolsComeFirst(e);
    ToolsComeFirst(f);
    hide FromTools, Decimal;
    var head := "{" + Named("assembly_version");
    assert CanonicalJson(e) == head + (Decimal(e.assemblyVersion) + FromTools(e));
    assert CanonicalJson(f) == head + (Decimal(f.assemblyVersion) + FromTools(f));
    Peel(head, Decimal(e.assemblyVersion) + FromTools(e), Decimal(f.assemblyVersion) + FromTools(f));
    DecimalReadsBack(e.assemblyVersion, f.assemblyVersion, FromTools(e), FromTools(f));
  }

  /** Two envelopes have the same canonical form only if they are the same envelope. */
  lemma CanonicalJsonInjective(e: RequestEnvelope, f: RequestEnvelope)
    ensures CanonicalJson(e) == CanonicalJson(f) <==> e == f
  {
    hide FromTools, FromDiscovery, FromSystemContent, CanonicalJson;
    if CanonicalJson(e) == CanonicalJson(f) {
      VersionMember(e, f);
      ToolsMember(e, f);
      OptionMembers(e, f);
      TextMembers(e, f);
    }
  }

  // ------------------------------------------------------------------ stored identities

  /** The hex digest of a text. */
  type Digest = string -> string

  function Fingerprint(sha: Digest, e: RequestEnvelope): string {
    sha(CanonicalJson(e))
  }

  predicate MatchesStoredAssembly(sha: Digest, e: RequestEnvelope, version: int, mark: string) {
    e.assemblyVersion == version && Fingerprint(sha, e) == mark
  }

  /** A rebuilt envelope matches what was stored for an envelope exactly if it is that envelope,
      unless the digest collides on these two texts. */
  lemma MatchIdentifiesOneRequest(sha: Digest, rebuilt: RequestEnvelope, stored: RequestEnvelope)
    requires sha(CanonicalJson(rebuilt)) == sha(CanonicalJson(stored)) ==> CanonicalJson(rebuilt) == CanonicalJson(stored)
    ensures MatchesStoredAssembly(sha, rebuilt, stored.assemblyVersion, Fingerprint(sha, stored)) <==> rebuilt == stored
  {
    CanonicalJsonInjective(rebuilt, stored);
  }
}
