/** Resolution of a template trigger's `for` dwell specification to a whole number
    of seconds.

    A `for` may be a number of seconds (`5`), a clock text (`"00:00:05"`), a mapping of
    units whose values are integers or templates (`{"seconds": 5}`,
    `{"seconds": "{{ 5 }}"}`), or a single template that renders the whole duration
    (`"{{ 5 }}"`, `"00:00:{{ 5 }}"`). Templates are rendered by the template engine,
    which is not part of this model: resolution receives it as a `render` function. */
module Duration {
  import opened Wrappers
  import opened Rendering

  /** A template as written in the configuration. */
  datatype Tmpl = Tmpl(source: string)

  /** One unit of a `for` mapping: an integer, or a template rendered when needed. */
  datatype Field = Fixed(n: int) | Templated(t: Tmpl)

  datatype ForSpec =
    | Seconds(n: int)                                           // `for: 5`
    | Clock(text: string)                                       // `for: "00:00:05"`
    | Units(days: Field, hours: Field, minutes: Field, seconds: Field)  // `for: {"seconds": 5}`; an absent unit is `Fixed(0)`
    | Whole(t: Tmpl)                                            // `for: "{{ 5 }}"`, `for: "00:00:{{ 5 }}"`

  /** A specification with no template in it; it is resolved, and checked, at registration. */
  predicate IsStatic(spec: ForSpec) {
    match spec
    case Seconds(_) => true
    case Clock(_) => true
    case Units(d, h, m, s) => d.Fixed? && h.Fixed? && m.Fixed? && s.Fixed?
    case Whole(_) => false
  }

  /** The templates a specification holds, in the order they are written. */
  function Templates(spec: ForSpec): seq<Tmpl> {
    match spec
    case Units(d, h, m, s) =>
      (if d.Templated? then [d.t] else []) + (if h.Templated? then [h.t] else []) +
      (if m.Templated? then [m.t] else []) + (if s.Templated? then [s.t] else [])
    case Whole(t) => [t]
    case _ => []
  }

  predicate IsDigit(c: char) {
    '0' <= c <= '9'
  }

  predicate AllDigits(s: string) {
    forall i :: 0 <= i < |s| ==> IsDigit(s[i])
  }

  /** The decimal value of a string of digits; leading zeros are allowed. */
  function DigitsValue(s: string): nat
    requires AllDigits(s)
    decreases |s|
  {
    if s == [] then 0 else 10 * DigitsValue(s[..|s| - 1]) + (s[|s| - 1] as int - '0' as int)
  }

  /** A non-negative decimal integer, or nothing when `s` is empty or holds a non-digit.
      Signs, surrounding whitespace, underscores and fractions are refused. */
  function ParseNat(s: string): Option<nat> {
    if s != [] && AllDigits(s) then Some(DigitsValue(s)) else None
  }

  function Digit(d: nat): char
    requires d < 10
  {
    ('0' as int + d) as char
  }

  /** The decimal spelling of `n`, without leading zeros. */
  function NatToString(n: nat): (s: string)
    ensures s != [] && AllDigits(s)
    ensures s[0] != '0' || n == 0
    decreases n
  {
    if n < 10 then [Digit(n)] else NatToString(n / 10) + [Digit(n % 10)]
  }

  /** Reading back the decimal spelling of `n` gives `n`. */
  lemma {:induction false} ParseNatRoundTrip(n: nat)
    ensures ParseNat(NatToString(n)) == Some(n)
  {
    var s := NatToString(n);
    if n < 10 {
      assert s == [Digit(n)] && s[..0] == [];
      assert DigitsValue(s) == 10 * DigitsValue([]) + (Digit(n) as int - '0' as int);
    } else {
      ParseNatRoundTrip(n / 10);
      assert s[..|s| - 1] == NatToString(n / 10);
      assert s[|s| - 1] as int - '0' as int == n % 10;
    }
  }

  /** Python's `str.split(":")`: the pieces between colons, always at least one. */
  function Split(s: string): (parts: seq<string>)
    ensures |parts| >= 1
    decreases |s|
  {
    if s == [] then [[]]
    else
      var rest := Split(s[1..]);
      if s[0] == ':' then [[]] + rest else [[s[0]] + rest[0]] + rest[1..]
  }

  /** Text without a colon splits into itself. */
  lemma {:induction false} SplitPlain(a: string)
    ensures ':' !in a ==> Split(a) == [a]
  {
    if a != [] && ':' !in a {
      assert ':' !in a[1..];
      SplitPlain(a[1..]);
      assert [a[0]] + a[1..] == a;
    }
  }

  /** Splitting at the first colon. */
  lemma {:induction false} SplitAtColon(a: string, b: string)
    requires ':' !in a
    ensures Split(a + ":" + b) == [a] + Split(b)
  {
    var s := a + ":" + b;
    if a == [] {
      assert s[1..] == b;
    } else {
      assert s[0] == a[0] && s[1..] == a[1..] + ":" + b;
      assert ':' !in a[1..];
      SplitAtColon(a[1..], b);
      assert [a[0]] + a[1..] == a;
    }
  }

  /** Digits hold no colon. */
  lemma DigitsNoColon(s: string)
    requires AllDigits(s)
    ensures ':' !in s
  {
    assert forall k :: 0 <= k < |s| ==> s[k] != ':';
  }

  /** Python's `":".join(parts)`. */
  function Join(parts: seq<string>): string
    requires |parts| >= 1
    decreases |parts|
  {
    if |parts| == 1 then parts[0] else parts[0] + ":" + Join(parts[1..])
  }

  /** Joining the pieces of a split with colons gives the text back. */
  lemma {:induction false} JoinSplit(s: string)
    ensures Join(Split(s)) == s
    decreases |s|
  {
    if s != [] {
      var rest := Split(s[1..]);
      JoinSplit(s[1..]);
      if s[0] == ':' {
        assert Split(s) == [[]] + rest;
        assert ([[]] + rest)[1..] == rest;
      } else {
        var parts := [[s[0]] + rest[0]] + rest[1..];
        assert Split(s) == parts;
        if |rest| == 1 {
          assert Join(parts) == [s[0]] + rest[0];
        } else {
          assert parts[1..] == rest[1..];
          assert Join(parts) == [s[0]] + (rest[0] + ":" + Join(rest[1..]));
        }
        assert [s[0]] + s[1..] == s;
      }
    }
  }

  predicate DigitsAndColons(s: string) {
    forall i :: 0 <= i < |s| ==> IsDigit(s[i]) || s[i] == ':'
  }

  /** Runs of digits joined by colons hold only digits and colons, and start with the first run. */
  lemma {:induction false} JoinDigitParts(parts: seq<string>)
    requires |parts| >= 1 && forall k :: 0 <= k < |parts| ==> AllDigits(parts[k])
    ensures DigitsAndColons(Join(parts)) && |Join(parts)| >= |parts[0]|
    decreases |parts|
  {
    if |parts| > 1 {
      JoinDigitParts(parts[1..]);
      var tail := Join(parts[1..]);
      var j := parts[0] + ":" + tail;
      assert forall i :: 0 <= i < |parts[0]| ==> j[i] == parts[0][i];
      assert forall i :: |parts[0]| < i < |j| ==> j[i] == tail[i - |parts[0]| - 1];
    }
  }

  /** A clock text `H:MM` or `H:MM:SS`, or a bare count of seconds, as a number of seconds.
      Text without a colon is a bare count; text that parses is non-empty and made of digits
      and colons only. */
  function ParsePeriod(text: string): (r: Option<nat>)
    ensures ':' !in text ==> r == ParseNat(text)
    ensures r.Some? ==> text != [] && DigitsAndColons(text)
  {
    var parts := Split(text);
    SplitPlain(text);
    JoinSplit(text);
    if |parts| == 1 then ParseNat(text)
    else if |parts| == 2 then
      (match (ParseNat(parts[0]), ParseNat(parts[1]))
       case (Some(h), Some(m)) => JoinDigitParts(parts); Some(3600 * h + 60 * m)
       case _ => None)
    else if |parts| == 3 then
      (match (ParseNat(parts[0]), ParseNat(parts[1]), ParseNat(parts[2]))
       case (Some(h), Some(m), Some(s)) => JoinDigitParts(parts); Some(3600 * h + 60 * m + s)
       case _ => None)
    else None
  }

  /** Any three runs of digits joined by colons read as hours, minutes and seconds. */
  lemma ParsePeriodClock(h: string, m: string, s: string, hv: nat, mv: nat, sv: nat)
    requires ParseNat(h) == Some(hv) && ParseNat(m) == Some(mv) && ParseNat(s) == Some(sv)
    ensures ParsePeriod(h + ":" + m + ":" + s) == Some(3600 * hv + 60 * mv + sv)
  {
    DigitsNoColon(h);
    DigitsNoColon(m);
    DigitsNoColon(s);
    assert h + ":" + m + ":" + s == h + ":" + (m + ":" + s);
    SplitAtColon(h, m + ":" + s);
    SplitAtColon(m, s);
    SplitPlain(s);
  }

  /** A bare number of seconds reads back as itself. */
  lemma ParsePeriodBareSeconds(n: nat)
    ensures ParsePeriod(NatToString(n)) == Some(n)
  {
    DigitsNoColon(NatToString(n));
    SplitPlain(NatToString(n));
    ParseNatRoundTrip(n);
  }

  /** The clock text `h:m:s` built from three numbers reads back as `3600h + 60m + s` seconds. */
  lemma ClockRoundTrip(h: nat, m: nat, s: nat)
    ensures ParsePeriod(NatToString(h) + ":" + NatToString(m) + ":" + NatToString(s)) == Some(3600 * h + 60 * m + s)
  {
    ParseNatRoundTrip(h);
    ParseNatRoundTrip(m);
    ParseNatRoundTrip(s);
    ParsePeriodClock(NatToString(h), NatToString(m), NatToString(s), h, m, s);
  }

  function NonNegative(n: int): Option<nat> {
    if n >= 0 then Some(n) else None
  }

  /** The integer a unit of a `for` mapping stands for: the integer itself, or what its
      template renders to, which must be an integer or text of digits. */
  function FieldValue(f: Field, render: Tmpl -> Rendered): Option<int> {
    match f
    case Fixed(n) => Some(n)
    case Templated(t) =>
      match render(t)
      case Num(n) => Some(n)
      case Str(s) => if ParseNat(s).Some? then Some(ParseNat(s).value) else None
      case _ => None
  }

  /** The dwell a specification stands for, in seconds, or nothing when a template in it
      does not render, what it renders is not a duration, or the duration is negative. */
  function ResolveFor(spec: ForSpec, render: Tmpl -> Rendered): (r: Option<nat>)
    ensures spec.Seconds? ==> (r.Some? <==> spec.n >= 0) && (r.Some? ==> r.value == spec.n)
    ensures spec.Clock? && r.Some? ==> DigitsAndColons(spec.text)
    ensures (exists t :: t in Templates(spec) && render(t) == RenderError) ==> r.None?
  {
    match spec
    case Seconds(n) => NonNegative(n)
    case Clock(text) => ParsePeriod(text)
    case Units(d, h, m, s) =>
      (match (FieldValue(d, render), FieldValue(h, render), FieldValue(m, render), FieldValue(s, render))
       case (Some(dv), Some(hv), Some(mv), Some(sv)) => NonNegative(86400 * dv + 3600 * hv + 60 * mv + sv)
       case _ => None)
    case Whole(t) =>
      match render(t)
      case Num(n) => NonNegative(n)
      case Str(text) => ParsePeriod(text)
      case _ => None
  }

  /** A specification without templates resolves the same whatever the renderer does. */
  lemma StaticIgnoresRenderer(spec: ForSpec, render1: Tmpl -> Rendered, render2: Tmpl -> Rendered)
    requires IsStatic(spec)
    ensures ResolveFor(spec, render1) == ResolveFor(spec, render2)
  {
  }

  /** A mapping that gives only seconds resolves to the value of its seconds. */
  lemma SecondsOnly(f: Field, render: Tmpl -> Rendered)
    ensures ResolveFor(Units(Fixed(0), Fixed(0), Fixed(0), f), render) ==
      if FieldValue(f, render).Some? then NonNegative(FieldValue(f, render).value) else None
  {
  }

  /** The clock text `00:00:5` stands for five seconds. */
  lemma ClockTextFiveSeconds()
    ensures ParsePeriod("00:00:5") == Some(5)
  {
    assert "00:00:5" == "00" + ":" + "00" + ":" + "5";
    assert ParseNat("00") == Some(0) by {
      assert "00"[..1] == "0";
      assert "0"[..0] == "";
    }
    assert ParseNat("5") == Some(5) by {
      assert "5"[..0] == "";
    }
    ParsePeriodClock("00", "00", "5", 0, 0, 5);
  }

  /** The five `for` forms of the trigger tests, `{"seconds": 5}`, `5`,
      `{"seconds": "{{ 5 }}"}`, `"{{ 5 }}"` and `"00:00:{{ 5 }}"`, each resolve to five
      seconds, given what the template engine renders for their templates. */
  lemma FiveSecondForms(render: Tmpl -> Rendered)
    requires render(Tmpl("{{ 5 }}")) == Num(5)
    requires render(Tmpl("00:00:{{ 5 }}")) == Str("00:00:5")
    ensures ResolveFor(Units(Fixed(0), Fixed(0), Fixed(0), Fixed(5)), render) == Some(5)
    ensures ResolveFor(Seconds(5), render) == Some(5)
    ensures ResolveFor(Units(Fixed(0), Fixed(0), Fixed(0), Templated(Tmpl("{{ 5 }}"))), render) == Some(5)
    ensures ResolveFor(Whole(Tmpl("{{ 5 }}")), render) == Some(5)
    ensures ResolveFor(Whole(Tmpl("00:00:{{ 5 }}")), render) == Some(5)
  {
    SecondsOnly(Fixed(5), render);
    SecondsOnly(Templated(Tmpl("{{ 5 }}")), render);
    ClockTextFiveSeconds();
  }
}
