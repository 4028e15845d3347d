/**
 * The JavaScript string built-ins that the screens' rules are written with:
 * `replace(/\D/g, "")` followed by `slice`, `toLowerCase`, `includes`, the `\s`
 * class of regular expressions, and the `parseFloat`/`parseInt` prefix parsers.
 */
module Text {
  import opened Wrappers
  import opened Lists

  predicate IsDigit(c: char) {
    '0' <= c <= '9'
  }

  predicate AllDigits(s: string) {
    forall i :: 0 <= i < |s| ==> IsDigit(s[i])
  }

  /** The characters matched by `\s` in a JavaScript regular expression. */
  predicate IsWhitespace(c: char) {
    c == ' ' || c == '\t' || c == '\n' || c == '\r' || c == '\U{B}' || c == '\U{C}'
    || c == '\U{A0}' || c == '\U{1680}' || ('\U{2000}' <= c <= '\U{200A}')
    || c == '\U{2028}' || c == '\U{2029}' || c == '\U{202F}' || c == '\U{205F}'
    || c == '\U{3000}' || c == '\U{FEFF}'
  }

  /** `s.replace(/\D/g, "")`: the decimal digits of `s`, in order. */
  function KeepDigits(s: string): (r: string)
    ensures AllDigits(r)
    ensures forall c :: multiset(r)[c] == if IsDigit(c) then multiset(s)[c] else 0
    ensures IsSubsequence(r, s)
  {
    Filter(s, IsDigit)
  }

  /** `s.replace(/\D/g, "").slice(0, max)`: what a digits-only input box keeps of a keystroke. */
  function SanitizeDigits(s: string, max: nat): (r: string)
    ensures AllDigits(r) && |r| <= max
    ensures r <= KeepDigits(s)
    ensures |r| == if |KeepDigits(s)| <= max then |KeepDigits(s)| else max
  {
    var digits := KeepDigits(s);
    if |digits| <= max then digits else digits[..max]
  }

  /** Sanitising an already sanitised value changes nothing. */
  lemma SanitizeIdempotent(s: string, max: nat)
    ensures SanitizeDigits(SanitizeDigits(s, max), max) == SanitizeDigits(s, max)
  {
    var r := SanitizeDigits(s, max);
    FilterKeepsAll(r, IsDigit);
  }

  /** `c.toLowerCase()` on the ASCII letters. */
  function ToLowerChar(c: char): char {
    if 'A' <= c <= 'Z' then (c as int + 32) as char else c
  }

  /** `s.toLowerCase()`, character by character. */
  function ToLower(s: string): (r: string)
    ensures |r| == |s|
    ensures forall i :: 0 <= i < |s| ==> r[i] == ToLowerChar(s[i])
  {
    seq(|s|, i requires 0 <= i < |s| => ToLowerChar(s[i]))
  }

  /** `t` occurs in `s` starting at position `i`. */
  predicate OccursAt(s: string, t: string, i: nat) {
    i + |t| <= |s| && s[i..i + |t|] == t
  }

  /** `s.includes(t)`: `t` occurs in `s` at some position. */
  predicate Contains(s: string, t: string) {
    exists i: nat | i <= |s| :: OccursAt(s, t, i)
  }

  /** Every string contains the empty string. */
  lemma ContainsEmpty(s: string)
    ensures Contains(s, "")
  {
    assert OccursAt(s, "", 0);
  }

  // ---------------------------------------------------------------------------
  // parseFloat / parseInt

  function DigitValue(c: char): nat
    requires IsDigit(c)
  {
    c as int - '0' as int
  }

  /** Length of the run of decimal digits at the start of `s`. */
  function DigitRun(s: string): (n: nat)
    ensures n <= |s|
    ensures AllDigits(s[..n])
    ensures n < |s| ==> !IsDigit(s[n])
  {
    if s == [] || !IsDigit(s[0]) then 0
    else
      var n := 1 + DigitRun(s[1..]);
      assert s[..n] == [s[0]] + s[1..][..n - 1];
      n
  }

  /** A run of digits followed by anything else is read to its end. */
  lemma {:induction false} DigitRunOfDigits(ds: string, rest: string)
    requires AllDigits(ds)
    requires rest == [] || !IsDigit(rest[0])
    ensures DigitRun(ds + rest) == |ds|
  {
    if ds != [] {
      assert (ds + rest)[1..] == ds[1..] + rest;
      DigitRunOfDigits(ds[1..], rest);
    } else {
      assert ds + rest == rest;
    }
  }

  function Pow10(n: nat): (p: nat)
    ensures p >= 1
  {
    if n == 0 then 1 else 10 * Pow10(n - 1)
  }

  /** The number a string of decimal digits denotes. */
  function DigitsValue(ds: string): (v: nat)
    requires AllDigits(ds)
    ensures v < Pow10(|ds|)
  {
    if ds == [] then 0 else DigitsValue(ds[..|ds| - 1]) * 10 + DigitValue(ds[|ds| - 1])
  }

  /** The value of a two-digit string. */
  lemma DigitsValueOfTwo(a: char, b: char)
    requires IsDigit(a) && IsDigit(b)
    ensures AllDigits([a, b])
    ensures DigitsValue([a, b]) == 10 * DigitValue(a) + DigitValue(b)
  {
    assert [a, b][..1] == [a];
    assert [a][..0] == [];
  }

  /** The value of a four-digit string. */
  lemma DigitsValueOfFour(a: char, b: char, c: char, d: char)
    requires IsDigit(a) && IsDigit(b) && IsDigit(c) && IsDigit(d)
    ensures AllDigits([a, b, c, d])
    ensures DigitsValue([a, b, c, d]) == 1000 * DigitValue(a) + 100 * DigitValue(b) + 10 * DigitValue(c) + DigitValue(d)
  {
    assert [a, b, c, d][..3] == [a, b, c];
    assert [a, b, c][..2] == [a, b];
    DigitsValueOfTwo(a, b);
  }

  /** The digit character of `v`. */
  function DigitChar(v: nat): (c: char)
    requires v < 10
    ensures IsDigit(c) && DigitValue(c) == v
  {
    ('0' as int + v) as char
  }

  /** `String(v).padStart(width, "0")` for a `v` that fits in `width` digits. */
  function PadDigits(v: nat, width: nat): (r: string)
    requires v < Pow10(width)
    ensures |r| == width && AllDigits(r)
    ensures DigitsValue(r) == v
  {
    if width == 0 then []
    else
      var r := PadDigits(v / 10, width - 1) + [DigitChar(v % 10)];
      assert r[..width - 1] == PadDigits(v / 10, width - 1);
      r
  }

  /** A string of digits is its own value padded to its length: no two such strings of one length share a value. */
  lemma {:induction false} PadDigitsOfValue(ds: string)
    requires AllDigits(ds)
    ensures PadDigits(DigitsValue(ds), |ds|) == ds
  {
    if ds != [] {
      var init := ds[..|ds| - 1];
      PadDigitsOfValue(init);
      var v := DigitsValue(ds);
      assert v / 10 == DigitsValue(init) && v % 10 == DigitValue(ds[|ds| - 1]);
      assert ds == init + [ds[|ds| - 1]];
    }
  }

  /** The number the digits after a decimal point denote: always in [0, 1). */
  function FractionValue(ds: string): (v: real)
    requires AllDigits(ds)
    ensures 0.0 <= v < 1.0
  {
    var d, p := DigitsValue(ds) as real, Pow10(|ds|) as real;
    assert 0.0 <= d < p;
    QuotientBelowOne(d, p);
    d / p
  }

  lemma QuotientBelowOne(a: real, b: real)
    requires 0.0 <= a < b
    ensures 0.0 <= a / b < 1.0
  {
    assert a / b * b == a;
  }

  /** Where the number starts after an optional sign, and whether it is negative. */
  function SignLength(s: string): nat {
    if |s| > 0 && (s[0] == '-' || s[0] == '+') then 1 else 0
  }

  function Signed(negative: bool, v: real): real {
    if negative then -v else v
  }

  /**
   * `parseFloat(s)`: reads the longest prefix of the form `[+-]digits[.digits]`;
   * a prefix with no digit at all is NaN, modelled as None.
   */
  function ParseFloat(s: string): (r: Option<real>)
    ensures var body := s[SignLength(s)..];
            r.None? <==> DigitRun(body) == 0 && !(|body| >= 2 && body[0] == '.' && IsDigit(body[1]))
    ensures r.Some? && !(|s| > 0 && s[0] == '-') ==> r.value >= 0.0
    ensures r.Some? && |s| > 0 && s[0] == '-' ==> r.value <= 0.0
  {
    var body := s[SignLength(s)..];
    var whole := DigitRun(body);
    var hasPoint := whole < |body| && body[whole] == '.';
    var frac := if hasPoint then DigitRun(body[whole + 1..]) else 0;
    if whole == 0 && frac == 0 then None
    else
      var wholeValue := DigitsValue(body[..whole]) as real;
      var magnitude :=
        if hasPoint then wholeValue + FractionValue(body[whole + 1..][..frac]) else wholeValue;
      Some(Signed(|s| > 0 && s[0] == '-', magnitude))
  }

  /** `parseInt(s, 10)`: reads the longest prefix of the form `[+-]digits`; none is NaN. */
  function ParseInt(s: string): (r: Option<int>)
    ensures r.None? <==> DigitRun(s[SignLength(s)..]) == 0
    ensures r.Some? && !(|s| > 0 && s[0] == '-') ==> r.value >= 0
    ensures r.Some? && |s| > 0 && s[0] == '-' ==> r.value <= 0
  {
    var body := s[SignLength(s)..];
    var n := DigitRun(body);
    if n == 0 then None
    else
      var v := DigitsValue(body[..n]);
      Some(if |s| > 0 && s[0] == '-' then -(v as int) else v)
  }

  /**
   * `parseInt` is `parseFloat` with the fraction cut off: whenever `parseInt` reads a number,
   * `parseFloat` reads one within a unit of it, on the side of its sign.
   */
  lemma ParseIntTruncatesParseFloat(s: string)
    requires ParseInt(s).Some?
    ensures ParseFloat(s).Some?
    ensures var n, f := ParseInt(s).value as real, ParseFloat(s).value;
            if |s| > 0 && s[0] == '-' then n - 1.0 < f <= n else n <= f < n + 1.0
  {
    var body := s[SignLength(s)..];
    var whole := DigitRun(body);
    var hasPoint := whole < |body| && body[whole] == '.';
    var frac := if hasPoint then DigitRun(body[whole + 1..]) else 0;
    var wholeValue := DigitsValue(body[..whole]) as real;
    if hasPoint {
      var fv := FractionValue(body[whole + 1..][..frac]);
      assert 0.0 <= fv < 1.0;
    }
  }

  /** An empty input is NaN for both parsers. */
  lemma ParseEmpty()
    ensures ParseFloat("") == None && ParseInt("") == None
  {
  }

  /** A plain string of digits parses to the number it denotes. */
  lemma ParseDigits(ds: string)
    requires ds != [] && AllDigits(ds)
    ensures ParseFloat(ds) == Some(DigitsValue(ds) as real)
    ensures ParseInt(ds) == Some(DigitsValue(ds))
  {
    assert SignLength(ds) == 0;
    assert ds[0..] == ds && ds + [] == ds;
    DigitRunOfDigits(ds, []);
    assert ds[..|ds|] == ds;
  }

  /** `whole.frac` parses to the whole part plus the fraction. */
  lemma ParseDecimal(whole: string, frac: string)
    requires whole != [] && AllDigits(whole) && AllDigits(frac)
    ensures ParseFloat(whole + "." + frac) == Some(DigitsValue(whole) as real + FractionValue(frac))
  {
    var s := whole + "." + frac;
    DecimalPieces(whole, frac);
    var body := s[SignLength(s)..];
    assert body == s;
    assert DigitRun(body) == |whole|;
    assert body[..|whole|] == whole;
    assert body[|whole| + 1..][..DigitRun(body[|whole| + 1..])] == frac;
  }

  /** How the parser cuts `whole.frac`: no sign, the whole run, the point, the fraction run. */
  lemma DecimalPieces(whole: string, frac: string)
    requires whole != [] && AllDigits(whole) && AllDigits(frac)
    ensures var s := whole + "." + frac;
            SignLength(s) == 0 && s[0..] == s
            && DigitRun(s) == |whole| && s[..|whole|] == whole && s[|whole|] == '.'
            && s[|whole| + 1..] == frac && DigitRun(frac) == |frac| && frac[..|frac|] == frac
  {
    var s := whole + "." + frac;
    assert s == whole + ("." + frac);
    DigitRunOfDigits(whole, "." + frac);
    assert s[..|whole|] == whole;
    assert s[|whole| + 1..] == frac;
    assert frac + [] == frac;
    DigitRunOfDigits(frac, []);
  }
}
