/**
 * The pieces of Rust's standard library the bot relies on for text:
 * `str::contains`, right-aligned width padding of numbers and `str::parse::<f64>`.
 * Numbers are `real`s: the model has no f64 rounding.
 */
module Strings {
  import opened Wrappers

  // ---------------------------------------------------------------- contains

  /** `pattern` occurs in `s` starting at index `i`. */
  predicate OccursAt(s: string, pattern: string, i: int) {
    0 <= i && i + |pattern| <= |s| && s[i..i + |pattern|] == pattern
  }

  /** `str::contains`: some window of `s` equals `pattern`. */
  function Contains(s: string, pattern: string): (r: bool)
    ensures r <==> exists i :: OccursAt(s, pattern, i)
    decreases |s|
  {
    if |s| < |pattern| then
      assert forall i :: !OccursAt(s, pattern, i);
      false
    else if s[..|pattern|] == pattern then
      assert OccursAt(s, pattern, 0);
      true
    else
      var rest := Contains(s[1..], pattern);
      assert forall i :: OccursAt(s[1..], pattern, i) ==> OccursAt(s, pattern, i + 1) by {
        forall i | OccursAt(s[1..], pattern, i) ensures OccursAt(s, pattern, i + 1) {
          assert s[i + 1..i + 1 + |pattern|] == s[1..][i..i + |pattern|];
        }
      }
      assert forall i :: OccursAt(s, pattern, i) ==> OccursAt(s[1..], pattern, i - 1) by {
        forall i | OccursAt(s, pattern, i) ensures OccursAt(s[1..], pattern, i - 1) {
          assert i != 0;
          assert s[1..][i - 1..i - 1 + |pattern|] == s[i..i + |pattern|];
        }
      }
      rest
  }

  // ---------------------------------------------------------------- padding

  function Spaces(n: nat): (r: string)
    ensures |r| == n && forall i :: 0 <= i < n ==> r[i] == ' '
  {
    seq(n, _ => ' ')
  }

  /**
   * Formatting a number whose `Display` text is `s` to a minimum width:
   * numbers are right-aligned, so the text is preceded by as many spaces
   * as are needed to reach `width` characters.
   */
  function PadLeft(s: string, width: nat): (r: string)
    ensures |r| == if |s| < width then width else |s|
    ensures r[|r| - |s|..] == s
    ensures forall i :: 0 <= i < |r| - |s| ==> r[i] == ' '
  {
    if |s| < width then Spaces(width - |s|) + s else s
  }

  // ---------------------------------------------------------------- digits

  predicate IsDigit(c: char) {
    '0' <= c <= '9'
  }

  predicate AllDigits(s: string) {
    forall i :: 0 <= i < |s| ==> IsDigit(s[i])
  }

  /** The number a run of decimal digits denotes. */
  function DigitsValue(s: string): nat
    requires AllDigits(s)
    decreases |s|
  {
    if s == [] then 0
    else 10 * DigitsValue(s[..|s| - 1]) + (s[|s| - 1] as int - '0' as int)
  }

  function Pow10(n: nat): (p: nat)
    ensures p >= 1
  {
    if n == 0 then 1 else 10 * Pow10(n - 1)
  }

  function DigitChar(d: nat): (c: char)
    requires d < 10
    ensures IsDigit(c) && c as int - '0' as int == d
  {
    ('0' as int + d) as char
  }

  /** The decimal text of a natural number, without leading zeros. */
  function NatToString(n: nat): (s: string)
    ensures |s| > 0 && AllDigits(s)
  {
    if n < 10 then [DigitChar(n)] else NatToString(n / 10) + [DigitChar(n % 10)]
  }

  lemma {:induction false} DigitsValueOfNatToString(n: nat)
    ensures DigitsValue(NatToString(n)) == n
  {
    if n >= 10 {
      var s := NatToString(n);
      assert s[..|s| - 1] == NatToString(n / 10);
      DigitsValueOfNatToString(n / 10);
    }
  }

  /** The first index of `s` holding a character of `cs`, or `|s|` when there is none. */
  function FirstIn(s: string, cs: set<char>): (i: nat)
    ensures i <= |s|
    ensures i < |s| ==> s[i] in cs
    ensures forall j :: 0 <= j < i ==> s[j] !in cs
  {
    if s == [] then 0
    else if s[0] in cs then 0
    else 1 + FirstIn(s[1..], cs)
  }

  // ---------------------------------------------------------------- parse::<f64>

  /** The digits-and-point part of a float literal: `Digit+`, `Digit+ '.' Digit*` or `Digit* '.' Digit+`. */
  function ParseMantissa(m: string): Option<real> {
    var dot := FirstIn(m, {'.'});
    var whole := m[..dot];
    var fraction := if dot < |m| then m[dot + 1..] else "";
    if AllDigits(whole) && AllDigits(fraction) && |whole| + |fraction| > 0 then
      Some(DigitsValue(whole) as real + DigitsValue(fraction) as real / Pow10(|fraction|) as real)
    else
      None
  }

  /** The part after `e`/`E`: an optional sign and at least one digit. */
  function ParseExponent(x: string): Option<int> {
    var digits := if |x| > 0 && (x[0] == '+' || x[0] == '-') then x[1..] else x;
    if |digits| > 0 && AllDigits(digits) then
      Some(if |x| > 0 && x[0] == '-' then -(DigitsValue(digits) as int) else DigitsValue(digits))
    else
      None
  }

  function Scale(m: real, e: int): real {
    if e >= 0 then m * Pow10(e) as real else m / Pow10(-e) as real
  }

  /**
   * `str::parse::<f64>` on the finite decimal grammar: an optional sign,
   * a mantissa and an optional exponent. The result is exact.
   */
  function ParseF64(s: string): Option<real> {
    var body := if |s| > 0 && (s[0] == '+' || s[0] == '-') then s[1..] else s;
    var e := FirstIn(body, {'e', 'E'});
    var mantissa := ParseMantissa(body[..e]);
    var exponent := if e < |body| then ParseExponent(body[e + 1..]) else Some(0);
    if mantissa.Some? && exponent.Some? then
      var magnitude := Scale(mantissa.value, exponent.value);
      Some(if |s| > 0 && s[0] == '-' then -magnitude else magnitude)
    else
      None
  }

  /** The decimal text of every natural number parses back to that number. */
  lemma ParseNatToString(n: nat)
    ensures ParseF64(NatToString(n)) == Some(n as real)
  {
    var s := NatToString(n);
    assert IsDigit(s[0]);
    var body := s;
    var e := FirstIn(body, {'e', 'E'});
    assert e == |body|;
    assert body[..e] == s;
    var dot := FirstIn(s, {'.'});
    assert dot == |s|;
    assert s[..dot] == s;
    DigitsValueOfNatToString(n);
    assert ParseMantissa(s) == Some(n as real);
  }

  lemma ParseWholeNumbers()
    ensures ParseF64("1") == Some(1.0)
    ensures ParseF64("250") == Some(250.0)
  {
    ParseNatToString(1);
    ParseNatToString(250);
    assert NatToString(250) == "250";
  }

  lemma ParseSignedFraction()
    ensures ParseF64("-2.5") == Some(-2.5)
  {
    var m := "2.5";
    assert "-2.5"[1..] == m;
    assert FirstIn(m, {'e', 'E'}) == 3;
    assert m[..3] == m;
    assert FirstIn(m, {'.'}) == 1;
    assert m[..1] == "2" && m[2..] == "5";
  }

  lemma ParseWithExponent()
    ensures ParseF64("25e-1") == Some(2.5)
  {
    var x := "25e-1";
    assert FirstIn(x, {'e', 'E'}) == 2;
    assert x[..2] == "25" && x[3..] == "-1";
    assert "-1"[1..] == "1";
    assert AllDigits("1") && DigitsValue("1") == 1 by {
      assert "1"[..0] == "";
    }
    assert ParseExponent("-1") == Some(-1);
    assert FirstIn("25", {'.'}) == 2;
    assert "25"[..2] == "25";
    assert "25"[..1] == "2";
    assert ParseMantissa("25") == Some(25.0);
  }

  lemma ParseRejects()
    ensures ParseF64("") == None
    ensures ParseF64(".") == None
    ensures ParseF64("1.2.3") == None
    ensures ParseF64("abc") == None
  {
    assert FirstIn(".", {'.'}) == 0;
    assert "."[1..] == "";
    assert FirstIn("1.2.3", {'e', 'E'}) == 5;
    assert "1.2.3"[..5] == "1.2.3";
    assert FirstIn("1.2.3", {'.'}) == 1;
    assert !IsDigit("1.2.3"[2..][1]);
    assert FirstIn("abc", {'e', 'E'}) == 3;
    assert "abc"[..3] == "abc";
    assert !IsDigit("abc"[0]);
  }
}
