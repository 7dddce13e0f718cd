/** What the template engine hands back for a trigger's `value_template`, and the
    truthiness rule that turns it into the predicate's verdict.

    The template engine itself (parsing, `is_state`, `states.…`, filters) is not part of
    this model: callers pass the outcome of a render in as a `Rendered` value. */
module Rendering {

  /** Outcome of rendering one template. */
  datatype Rendered =
    | Bool(b: bool)   // a native boolean: `{{ true }}`, `{{ is_state(…) }}`
    | Str(s: string)  // text: `{{ "TrUE" }}`, the plain template `true`, `00:00:5`
    | Num(n: int)     // an integer: `{{ 5 }}`
    | Other           // anything else the engine can produce (none, floats, lists, mappings)
    | RenderError     // rendering raised: division by zero, an undefined name in an operation

  /** The whitespace Python's `str.strip()` removes when called without arguments: the
      characters `str.isspace()` accepts, namely tab through carriage return, the four
      information separators U+001C to U+001F, space, U+0085, no-break space U+00A0,
      U+1680, U+2000 to U+200A, the line and paragraph separators U+2028 and U+2029,
      U+202F, U+205F and U+3000. */
  predicate IsSpace(c: char) {
    '\t' <= c <= '\r' || '\U{1C}' <= c <= ' ' || c == '\U{85}' || c == '\U{A0}' ||
    c == '\U{1680}' || '\U{2000}' <= c <= '\U{200A}' || c == '\U{2028}' || c == '\U{2029}' ||
    c == '\U{202F}' || c == '\U{205F}' || c == '\U{3000}'
  }

  predicate AllSpace(s: string) {
    forall i :: 0 <= i < |s| ==> IsSpace(s[i])
  }

  /** `s` without its leading whitespace: a suffix of `s`, what was dropped is all
      whitespace, and what remains does not start with whitespace. */
  function TrimLeft(s: string): (r: string)
    ensures |r| <= |s| && r == s[|s| - |r|..]
    ensures AllSpace(s[..|s| - |r|])
    ensures r == [] || !IsSpace(r[0])
    decreases |s|
  {
    if s != [] && IsSpace(s[0]) then
      TrimLeft(s[1..])
    else
      s
  }

  /** `s` without its trailing whitespace: a prefix of `s`, what was dropped is all
      whitespace, and what remains does not end with whitespace. */
  function TrimRight(s: string): (r: string)
    ensures |r| <= |s| && r == s[..|r|]
    ensures AllSpace(s[|r|..])
    ensures r == [] || !IsSpace(r[|r| - 1])
    decreases |s|
  {
    if s != [] && IsSpace(s[|s| - 1]) then
      var r := TrimRight(s[..|s| - 1]);
      assert s[|r|..] == s[..|s| - 1][|r|..] + [s[|s| - 1]];
      r
    else
      s
  }

  /** Python's `str.strip()` without arguments. */
  function Strip(s: string): string {
    TrimRight(TrimLeft(s))
  }

  function LowerChar(c: char): char {
    if 'A' <= c <= 'Z' then (c as int + 32) as char else c
  }

  /** Lower-casing of the ASCII letters. Python's `str.lower()` also maps other letters, but
      none of them to `t`, `r`, `u` or `e`, so comparing the lowered text with `true` gives
      the same answer either way. */
  function Lower(s: string): string {
    seq(|s|, i requires 0 <= i < |s| => LowerChar(s[i]))
  }

  /** The truthiness of a rendered value: a native `true`, or text that reads `true`
      in any letter case once surrounding whitespace is stripped. Everything else,
      `false`, any other text, numbers, containers and a failed render, is not true. */
  predicate IsTrue(r: Rendered): (b: bool)
    ensures b ==> r.Bool? || r.Str?
    ensures r.Bool? ==> (b <==> r.b)
    ensures r.Str? && b ==> |r.s| >= 4
  {
    match r
    case Bool(b) => b
    case Str(s) => Lower(Strip(s)) == "true"
    case _ => false
  }

  /** Trimming on the left stops exactly at the first non-whitespace character. */
  lemma {:induction false} TrimLeftAt(s: string, i: nat)
    requires i <= |s| && AllSpace(s[..i])
    requires i == |s| || !IsSpace(s[i])
    ensures TrimLeft(s) == s[i..]
    decreases i
  {
    if i > 0 {
      assert s[..i][0] == s[0];
      assert s[1..][..i - 1] == s[..i][1..];
      TrimLeftAt(s[1..], i - 1);
      assert s[1..][i - 1..] == s[i..];
    }
  }

  /** Trimming on the right stops exactly after the last non-whitespace character. */
  lemma TrimRightAt(s: string, j: nat)
    requires j <= |s| && AllSpace(s[j..])
    requires j == 0 || !IsSpace(s[j - 1])
    ensures TrimRight(s) == s[..j]
  {
    var r := TrimRight(s);
    assert forall m :: j <= m < |s| ==> s[j..][m - j] == s[m];
    assert forall m :: |r| <= m < |s| ==> s[|r|..][m - |r|] == s[m];
    assert r != [] ==> r[|r| - 1] == s[|r| - 1];
  }

  /** A word that lower-cases to `true` has four letters and no whitespace at either end. */
  lemma LowerTrueEnds(w: string)
    requires Lower(w) == "true"
    ensures |w| == 4 && !IsSpace(w[0]) && !IsSpace(w[3])
  {
    assert Lower(w)[0] == LowerChar(w[0]) == 't';
    assert Lower(w)[3] == LowerChar(w[3]) == 'e';
  }

  /** Text that strips down to a spelling of `true` has that shape. */
  lemma TrueTextShape(s: string) returns (i: nat, j: nat)
    requires IsTrue(Str(s))
    ensures i <= j <= |s| && AllSpace(s[..i]) && AllSpace(s[j..]) && Lower(s[i..j]) == "true"
  {
    var t := TrimLeft(s);
    i := |s| - |t|;
    var u := TrimRight(t);
    j := i + |u|;
    assert u == s[i..j];
    assert t[|u|..] == s[j..];
  }

  /** A spelling of `true` in any letter case, surrounded by whitespace only, is true. */
  lemma ShapedTextIsTrue(s: string, i: nat, j: nat)
    requires i <= j <= |s| && AllSpace(s[..i]) && AllSpace(s[j..]) && Lower(s[i..j]) == "true"
    ensures IsTrue(Str(s))
  {
    LowerTrueEnds(s[i..j]);
    TrimLeftAt(s, i);
    assert s[i..][j - i..] == s[j..];
    TrimRightAt(s[i..], j - i);
    assert s[i..][..j - i] == s[i..j];
  }

  /** Text is true exactly when it is some spelling of `true` in any letter case,
      surrounded by nothing but whitespace. */
  lemma StrTruthIff(s: string)
    ensures IsTrue(Str(s)) <==>
      exists i, j :: 0 <= i <= j <= |s| && AllSpace(s[..i]) && AllSpace(s[j..]) && Lower(s[i..j]) == "true"
  {
    if IsTrue(Str(s)) {
      var i, j := TrueTextShape(s);
    }
    if exists i, j :: 0 <= i <= j <= |s| && AllSpace(s[..i]) && AllSpace(s[j..]) && Lower(s[i..j]) == "true" {
      var i, j :| 0 <= i <= j <= |s| && AllSpace(s[..i]) && AllSpace(s[j..]) && Lower(s[i..j]) == "true";
      ShapedTextIsTrue(s, i, j);
    }
  }

  /** Text that neither starts nor ends with whitespace is stripped to itself. */
  lemma StripUnpadded(s: string)
    requires s != [] && !IsSpace(s[0]) && !IsSpace(s[|s| - 1])
    ensures Strip(s) == s
  {
    TrimLeftAt(s, 0);
    TrimRightAt(s, |s|);
  }

  /** Unpadded text of any length other than four is never true. */
  lemma UnpaddedOtherLengthNotTrue(s: string)
    requires s != [] && !IsSpace(s[0]) && !IsSpace(s[|s| - 1]) && |s| != 4
    ensures !IsTrue(Str(s))
  {
    StripUnpadded(s);
    assert |Lower(s)| == |s|;
  }

  /** `true`, `"true"` and `"TrUE"`, the values the firing tests render, are true. */
  lemma TrueTestValues()
    ensures IsTrue(Bool(true))
    ensures IsTrue(Str("true")) && IsTrue(Str("TrUE"))
  {
    assert Lower("true") == "true";
    ShapedTextIsTrue("true", 0, 4);
    assert Lower("TrUE") == "true";
    ShapedTextIsTrue("TrUE", 0, 4);
  }

  /** `false`, the text `Anything other than true is false.`, the text `false` and a failed
      render, the values the non-firing tests render, are not true. */
  lemma NotTrueTestValues()
    ensures !IsTrue(Bool(false)) && !IsTrue(RenderError)
    ensures !IsTrue(Str("Anything other than true is false.")) && !IsTrue(Str("false"))
  {
    UnpaddedOtherLengthNotTrue("false");
    UnpaddedOtherLengthNotTrue("Anything other than true is false.");
  }
}
