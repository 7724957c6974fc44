/** The canonical form of an envelope is what a general JSON writer (RFC 8259; ASCII only, no white
    space) makes of the envelope's members in key order, and its strings denote the texts they stand
    for. */
module JsonForm {
  import opened Tables
  import opened Archive
  import opened Envelope
  import TargetKeys

  // ------------------------------------------------------------------ what a string character denotes

  function HexValue(c: char): Option<int> {
    if '0' <= c <= '9' then Some(c as int - '0' as int)
    else if 'a' <= c <= 'f' then Some(c as int - 'a' as int + 10)
    else None
  }

  /** The code unit of `\uXXXX`. */
  function UnitValue(s: string): Option<int>
    requires |s| == 6
  {
    if s[0] != '\\' || s[1] != 'u' || HexValue(s[2]).None? || HexValue(s[3]).None? || HexValue(s[4]).None? || HexValue(s[5]).None? then None
    else Some(((HexValue(s[2]).value * 16 + HexValue(s[3]).value) * 16 + HexValue(s[4]).value) * 16 + HexValue(s[5]).value)
  }

  /** The character a JSON reader takes from between the quotes: one plain character, a short escape, or
      one or two code units. */
  function Denoted(s: string): Option<int> {
    if |s| == 1 then (if s[0] != '"' && s[0] != '\\' && s[0] as int >= 32 then Some(s[0] as int) else None)
    else if |s| == 2 && s[0] == '\\' then
      match s[1]
      case '"' => Some(34)
      case '\\' => Some(92)
      case 'b' => Some(8)
      case 'f' => Some(12)
      case 'n' => Some(10)
      case 'r' => Some(13)
      case 't' => Some(9)
      case _ => None
    else if |s| == 6 then UnitValue(s)
    else if |s| == 12 && UnitValue(s[..6]).Some? && UnitValue(s[6..]).Some? then
      Some(0x10000 + (UnitValue(s[..6]).value - 0xD800) * 0x400 + (UnitValue(s[6..]).value - 0xDC00))
    else None
  }

  lemma HexDigitDenotes(d: int)
    requires 0 <= d < 16
    ensures HexValue(HexDigit(d)) == Some(d)
  {
  }

  lemma UnitDenotes(n: int)
    requires 0 <= n < 0x10000
    ensures UnitValue(Unit(n)) == Some(n)
  {
    Nibbles(n);
    HexDigitDenotes(n / 0x1000);
    HexDigitDenotes(n / 0x100 % 0x10);
    HexDigitDenotes(n / 0x10 % 0x10);
    HexDigitDenotes(n % 0x10);
    hide HexDigit, HexValue;
  }

  /** Every escape denotes the character it was made for, and is printable ASCII. */
  lemma EscapeDenotes(c: char)
    ensures Denoted(Escaped(c)) == Some(c as int)
    ensures forall i :: 0 <= i < |Escaped(c)| ==> 32 <= Escaped(c)[i] as int <= 126
  {
    var n := c as int;
    if ByUnits(c) {
      UnitForm(c);
      hide Escaped, UnitValue;
      if n < 0x10000 {
        UnitDenotes(n);
      } else {
        UnitDenotes(High(n));
        UnitDenotes(Low(n));
        var s := Unit(High(n)) + Unit(Low(n));
        assert s[..6] == Unit(High(n)) && s[6..] == Unit(Low(n));
        assert n - 0x10000 == (n - 0x10000) / 0x400 * 0x400 + (n - 0x10000) % 0x400;
      }
    } else {
      hide UnitValue, Unit;
    }
  }

  // ------------------------------------------------------------------ a general writer of flat objects

  datatype Value = Null | Bool(b: bool) | Int(n: int) | Text(s: string) | Texts(items: seq<string>)

  function Dumps(v: Value): string {
    match v
    case Null => "null"
    case Bool(b) => if b then "true" else "false"
    case Int(n) => TargetKeys.Decimal(n)
    case Text(s) => Quoted(s)
    case Texts(items) => "[" + Elements(items)
  }

  /** The members of an object and its closing brace. */
  function DumpsMembers(members: seq<(string, Value)>): string {
    if members == [] then "}"
    else Quoted(members[0].0) + ":" + Dumps(members[0].1) + (if |members| == 1 then "}" else "," + DumpsMembers(members[1..]))
  }

  function DumpsObject(members: seq<(string, Value)>): string {
    "{" + DumpsMembers(members)
  }

  // ------------------------------------------------------------------ the envelope as an object

  /** The envelope's members in key order. */
  function Members(e: RequestEnvelope): seq<(string, Value)> {
    [("assembly_version", Int(e.assemblyVersion)),
     ("available_tools", Texts(e.availableTools)),
     ("enable_config_discovery", Bool(e.enableConfigDiscovery)),
     ("enable_skills", Bool(e.enableSkills)),
     ("model", Text(e.model)),
     ("skip_custom_instructions", Bool(e.skipCustomInstructions)),
     ("streaming", Bool(e.streaming)),
     ("system_content", Text(e.systemContent)),
     ("system_mode", Text(e.systemMode)),
     ("target_id", if e.targetId.Some? then Text(e.targetId.value) else Null),
     ("target_kind", Text(e.targetKind)),
     ("user_content", Text(e.userContent)),
     ("working_directory", Text(e.workingDirectory))]
  }

  lemma {:induction false} LessAt(a: string, b: string, k: nat)
    requires k < |a| && k < |b| && a[..k] == b[..k] && a[k] < b[k]
    ensures TextLess(a, b)
  {
    if k > 0 {
      assert a[0] == a[..k][0] == b[..k][0] == b[0];
      assert a[1..][..k - 1] == a[..k][1..] && b[1..][..k - 1] == b[..k][1..];
      LessAt(a[1..], b[1..], k - 1);
    }
  }

  /** Members come in ascending order of their keys. */
  lemma MembersAreSorted(e: RequestEnvelope, n: nat)
    requires n < |Members(e)| - 1
    ensures TextLess(Members(e)[n].0, Members(e)[n + 1].0)
  {
    var a, b := Members(e)[n].0, Members(e)[n + 1].0;
    var k := if n == 2 || n == 7 || n == 9 then 7 else if n == 0 || n == 5 || n == 6 then 1 else 0;
    hide TextLess;
    assert a[..k] == b[..k];
    LessAt(a, b, k);
  }

  predicate KeyLike(key: string) {
    forall i :: 0 <= i < |key| ==> key[i] == '_' || 'a' <= key[i] <= 'z'
  }

  lemma {:induction false} PlainText(s: string)
    requires KeyLike(s)
    ensures EscapedAll(s) == s
  {
    if s != "" {
      PlainText(s[1..]);
      assert Escaped(s[0]) == [s[0]];
      assert s == [s[0]] + s[1..];
    }
  }

  lemma KeysArePlain(e: RequestEnvelope, n: nat)
    requires n < |Members(e)|
    ensures KeyLike(Members(e)[n].0)
  {
    if n < 3 {
      assert KeyLike("assembly_version") && KeyLike("available_tools") && KeyLike("enable_config_discovery");
    } else if n < 6 {
      assert KeyLike("enable_skills") && KeyLike("model") && KeyLike("skip_custom_instructions");
    } else {
      LaterKeysArePlain(e, n);
    }
  }

  lemma LaterKeysArePlain(e: RequestEnvelope, n: nat)
    requires 6 <= n < |Members(e)|
    ensures KeyLike(Members(e)[n].0)
  {
    if n < 9 {
      assert KeyLike("streaming") && KeyLike("system_content") && KeyLike("system_mode");
    } else {
      assert KeyLike("target_id") && KeyLike("target_kind") && KeyLike("user_content") && KeyLike("working_directory");
    }
  }

  lemma Regrouped(q: string, key: string, value: string, rest: string)
    ensures (q + key + q) + ":" + value + rest == (q + key + (q + ":")) + value + rest
  {
    assert (q + key + q) + ":" == q + key + (q + ":");
  }

  lemma QuotedKey(key: string, value: string, rest: string)
    requires KeyLike(key)
    ensures Quoted(key) + ":" + value + rest == Named(key) + value + rest
  {
    PlainText(key);
    hide EscapedAll, KeyLike;
    Regrouped("\"", key, value, rest);
  }

  /** The first of some members, written out, followed by the rest. */
  lemma MemberWritten(m: seq<(string, Value)>, rest: string)
    requires m != [] && KeyLike(m[0].0) && rest == if |m| == 1 then "}" else "," + DumpsMembers(m[1..])
    ensures "," + DumpsMembers(m) == Next(m[0].0) + Dumps(m[0].1) + rest
    ensures DumpsMembers(m) == Named(m[0].0) + Dumps(m[0].1) + rest
  {
    hide Dumps, KeyLike, Quoted, Named;
    var key, value := m[0].0, Dumps(m[0].1);
    QuotedKey(key, value, rest);
    assert DumpsMembers(m) == Quoted(key) + ":" + value + rest;
    hide DumpsMembers;
    Prefixed(",", Named(key), value, rest);
  }

  /** The canonical form from member n on. */
  function From(e: RequestEnvelope, n: nat): string {
    match n
    case 1 => FromTools(e)
    case 2 => FromDiscovery(e)
    case 3 => FromSkills(e)
    case 4 => FromModel(e)
    case 5 => FromSkip(e)
    case 6 => FromStreaming(e)
    case 7 => FromSystemContent(e)
    case 8 => FromSystemMode(e)
    case 9 => FromTargetId(e)
    case 10 => FromTargetKind(e)
    case 11 => FromUserContent(e)
    case 12 => FromWorkingDirectory(e)
    case _ => "}"
  }

  lemma FromUnfolds(e: RequestEnvelope, n: nat)
    requires 1 <= n < 13
    ensures |Members(e)| == 13 && From(e, n) == Next(Members(e)[n].0) + Dumps(Members(e)[n].1) + From(e, n + 1)
  {
    if n < 7 {
      OptionsUnfold(e, n);
    } else {
      TextsUnfold(e, n);
    }
    hide From, Members;
  }

  lemma OptionsUnfold(e: RequestEnvelope, n: nat)
    requires 1 <= n < 7
    ensures |Members(e)| == 13 && From(e, n) == Next(Members(e)[n].0) + Dumps(Members(e)[n].1) + From(e, n + 1)
  {
    hide Next, Quoted, Elements, FromSystemContent;
    if n == 1 {
      ToolsFirst(Next("available_tools"), Elements(e.availableTools), FromDiscovery(e));
    }
  }

  lemma TextsUnfold(e: RequestEnvelope, n: nat)
    requires 7 <= n < 13
    ensures |Members(e)| == 13 && From(e, n) == Next(Members(e)[n].0) + Dumps(Members(e)[n].1) + From(e, n + 1)
  {
    hide Next, Quoted;
  }

  lemma ToolsFirst(key: string, elements: string, rest: string)
    ensures key + "[" + elements + rest == key + ("[" + elements) + rest
  {
    assert key + "[" + elements == key + ("[" + elements);
  }

  lemma {:induction false} RestIsGeneral(e: RequestEnvelope, n: nat)
    requires 1 <= n <= 13
    ensures |Members(e)| == 13 && From(e, n) == if n == 13 then "}" else "," + DumpsMembers(Members(e)[n..])
    decreases 13 - n
  {
    if n < 13 {
      KeysArePlain(e, n);
      FromUnfolds(e, n);
      RestIsGeneral(e, n + 1);
      hide From, Members, DumpsMembers, Next, Dumps, KeyLike;
      assert Members(e)[n..][1..] == Members(e)[n + 1..] && Members(e)[n..][0] == Members(e)[n];
      MemberWritten(Members(e)[n..], From(e, n + 1));
    }
  }

  /** The canonical form is the general writer's form of the members in key order. */
  lemma CanonicalIsGeneral(e: RequestEnvelope)
    ensures CanonicalJson(e) == DumpsObject(Members(e))
  {
    hide From, Members, DumpsMembers, Next, Named, Dumps, KeyLike, CanonicalJson;
    RestIsGeneral(e, 1);
    KeysArePlain(e, 0);
    FirstUnfolds(e);
    var m := Members(e);
    MemberWritten(m, From(e, 1));
    Prefixed("{", Named(m[0].0), Dumps(m[0].1), From(e, 1));
  }

  lemma FirstUnfolds(e: RequestEnvelope)
    ensures |Members(e)| == 13
    ensures CanonicalJson(e) == "{" + Named(Members(e)[0].0) + Dumps(Members(e)[0].1) + From(e, 1)
  {
    hide Named, FromTools, TargetKeys.Decimal;
  }

  lemma Prefixed(brace: string, key: string, value: string, rest: string)
    ensures brace + (key + value + rest) == brace + key + value + rest
  {
    assert brace + (key + value) == brace + key + value;
  }
}
