/** The text of a stream: its chunks joined in order; and `str.strip`. */
module Texts {

  // ------------------------------------------------------------------ joining

  function Text(tokens: seq<string>): string {
    if tokens == [] then "" else Text(tokens[..|tokens| - 1]) + tokens[|tokens| - 1]
  }

  /** Chunk k is the piece of the text between its two cuts. */
  predicate PieceAt(text: string, tokens: seq<string>, cuts: seq<nat>, k: nat) {
    k < |tokens| && k + 1 < |cuts| && cuts[k] <= cuts[k + 1] <= |text| && text[cuts[k]..cuts[k + 1]] == tokens[k]
  }

  /** The text falls into the chunks, one piece each, in order and without gaps; `cuts` are the places
      between them. */
  ghost predicate CutInto(text: string, tokens: seq<string>, cuts: seq<nat>) {
    && |cuts| == |tokens| + 1 && cuts[0] == 0 && cuts[|tokens|] == |text|
    && forall k: nat :: k < |tokens| ==> PieceAt(text, tokens, cuts, k)
  }

  ghost predicate IsJoined(text: string, tokens: seq<string>) {
    exists cuts :: CutInto(text, tokens, cuts)
  }

  lemma {:induction false} TextIsCut(tokens: seq<string>) returns (cuts: seq<nat>)
    ensures CutInto(Text(tokens), tokens, cuts)
  {
    if tokens == [] {
      cuts := [0];
    } else {
      var n := |tokens| - 1;
      var before, text := Text(tokens[..n]), Text(tokens);
      var shorter := TextIsCut(tokens[..n]);
      cuts := shorter + [|text|];
      forall k: nat | k < |tokens| ensures PieceAt(text, tokens, cuts, k) {
        if k < n {
          assert PieceAt(before, tokens[..n], shorter, k);
          assert text[cuts[k]..cuts[k + 1]] == before[cuts[k]..cuts[k + 1]];
        }
      }
    }
  }

  lemma {:induction false} CutIsText(text: string, tokens: seq<string>, cuts: seq<nat>)
    requires CutInto(text, tokens, cuts)
    ensures text == Text(tokens)
    decreases |tokens|
  {
    if tokens != [] {
      var n := |tokens| - 1;
      assert PieceAt(text, tokens, cuts, n);
      var before := text[..cuts[n]];
      var fewer, places := tokens[..n], cuts[..n + 1];
      forall k: nat | k < n ensures PieceAt(before, fewer, places, k) {
        assert PieceAt(text, tokens, cuts, k);
        CutsRise(text, tokens, cuts, k + 1, n);
        assert before[cuts[k]..cuts[k + 1]] == text[cuts[k]..cuts[k + 1]];
      }
      CutIsText(before, fewer, places);
      assert text == before + text[cuts[n]..cuts[n + 1]];
    }
  }

  lemma {:induction false} CutsRise(text: string, tokens: seq<string>, cuts: seq<nat>, k: nat, n: nat)
    requires CutInto(text, tokens, cuts) && k <= n < |cuts|
    ensures cuts[k] <= cuts[n]
    decreases n - k
  {
    if k < n {
      assert PieceAt(text, tokens, cuts, k);
      CutsRise(text, tokens, cuts, k + 1, n);
    }
  }

  /** What is collected is the chunks joined in order, and no other text is. */
  lemma TextIsTheTokens(text: string, tokens: seq<string>)
    ensures IsJoined(text, tokens) <==> text == Text(tokens)
  {
    var cuts := TextIsCut(tokens);
    if IsJoined(text, tokens) {
      var others :| CutInto(text, tokens, others);
      CutIsText(text, tokens, others);
    }
  }

  lemma TextOfOne(token: string)
    ensures Text([token]) == token
  {
    assert [token][..0] == [];
    assert "" + token == token;
  }

  lemma {:induction false} TextConcat(a: seq<string>, b: seq<string>)
    ensures Text(a + b) == Text(a) + Text(b)
  {
    if b == [] {
      assert a + b == a && Text(a) + "" == Text(a);
    } else {
      var n := |b| - 1;
      assert (a + b)[..|a + b| - 1] == a + b[..n];
      TextConcat(a, b[..n]);
    }
  }

  /** Each chunk stands directly after the chunks before it. */
  lemma ChunkStands(tokens: seq<string>, k: nat)
    requires k < |tokens|
    ensures Text(tokens) == Text(tokens[..k]) + tokens[k] + Text(tokens[k + 1..])
  {
    hide Text;
    var before, one, after := tokens[..k], [tokens[k]], tokens[k + 1..];
    assert tokens == before + one + after;
    TextConcat(before + one, after);
    TextConcat(before, one);
    TextOfOne(tokens[k]);
  }

  /** Collect the chunks of a stream. */
  method Collect(tokens: seq<string>) returns (text: string)
    ensures text == Text(tokens)
  {
    text := "";
    var n := 0;
    while n < |tokens|
      invariant n <= |tokens| && text == Text(tokens[..n])
    {
      assert tokens[..n + 1][..n] == tokens[..n];
      text := text + tokens[n];
      n := n + 1;
    }
    assert tokens[..n] == tokens;
  }

  // ------------------------------------------------------------------ stripping

  /** Text that `str.strip` takes off the ends. */
  predicate Space(c: char) {
    || '\t' <= c <= '\r' || '\U{1C}' <= c <= ' ' || c == '\U{85}' || c == '\U{A0}' || c == '\U{1680}'
    || '\U{2000}' <= c <= '\U{200A}' || c == '\U{2028}' || c == '\U{2029}' || c == '\U{202F}' || c == '\U{205F}' || c == '\U{3000}'
  }

  function Stripped(text: string): (r: string)
    ensures r != "" ==> !Space(r[0]) && !Space(r[|r| - 1])
    decreases |text|
  {
    if text == "" then ""
    else if Space(text[0]) then Stripped(text[1..])
    else if Space(text[|text| - 1]) then Stripped(text[..|text| - 1])
    else text
  }

  predicate AllSpace(text: string) {
    forall n :: 0 <= n < |text| ==> Space(text[n])
  }

  /** Stripping takes nothing but space, and only from the two ends. */
  lemma {:induction false} StrippedIsTheMiddle(text: string) returns (before: string, after: string)
    ensures text == before + Stripped(text) + after && AllSpace(before) && AllSpace(after)
    decreases |text|
  {
    hide Space;
    before, after := "", "";
    if text != "" {
      if Space(text[0]) {
        before, after := StrippedIsTheMiddle(text[1..]);
        before := [text[0]] + before;
      } else if Space(text[|text| - 1]) {
        before, after := StrippedIsTheMiddle(text[..|text| - 1]);
        after := after + [text[|text| - 1]];
        assert text == text[..|text| - 1] + [text[|text| - 1]];
      } else {
        assert "" + text + "" == text;
      }
    }
  }
}
