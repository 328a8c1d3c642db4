/**
 * The numbers the calculator works with: the decimal text in its buffers,
 * read the way `parseFloat` reads it and written back the way
 * `Number.prototype.toString` writes it. Values are exact rationals
 * (`real`) instead of IEEE doubles; `NaN` stays a value, because text that
 * holds no number (the error marker, for one) parses to it.
 */
module Numerals {

  datatype Value = Num(x: real) | NaN

  predicate IsDigit(c: char) {
    '0' <= c <= '9'
  }

  predicate AllDigits(s: string) {
    forall k :: 0 <= k < |s| ==> IsDigit(s[k])
  }

  function DigitValue(c: char): (d: nat)
    requires IsDigit(c)
    ensures d < 10
  {
    c as int - '0' as int
  }

  function DigitChar(d: nat): (c: char)
    requires d < 10
    ensures IsDigit(c) && DigitValue(c) == d
  {
    ('0' as int + d) as char
  }

  function Pow10(n: nat): (p: nat)
    ensures p >= 1
  {
    if n == 0 then 1 else 10 * Pow10(n - 1)
  }

  /** The decimal digits of `n`, most significant first, without leading zeros. */
  function Digits(n: nat): (s: string)
    ensures |s| > 0 && AllDigits(s)
    ensures s[0] == '0' ==> n == 0
  {
    if n < 10 then [DigitChar(n)] else Digits(n / 10) + [DigitChar(n % 10)]
  }

  /** The number a string of decimal digits denotes. */
  function DigitsValue(s: string): nat
    requires AllDigits(s)
  {
    if s == [] then 0 else DigitsValue(s[..|s| - 1]) * 10 + DigitValue(s[|s| - 1])
  }

  /** The length of the run of digits that opens `s`. */
  function DigitRun(s: string): (n: nat)
    ensures n <= |s| && AllDigits(s[..n])
    ensures n < |s| ==> !IsDigit(s[n])
  {
    if s != [] && IsDigit(s[0]) then 1 + DigitRun(s[1..]) else 0
  }

  /**
   * `parseFloat(s)` on the decimal subset: an optional sign, a run of
   * digits, optionally a point and a second run; the longest such prefix is
   * read and the rest ignored; `NaN` when neither run has a digit.
   */
  function Parse(s: string): (v: Value)
    ensures |s| > 0 && IsDigit(s[0]) ==> v.Num? && v.x >= 0.0
    ensures s == [] || (!IsDigit(s[0]) && s[0] != '-' && s[0] != '+' && s[0] != '.') ==> v == NaN
  {
    if |s| > 0 && s[0] == '-' then Negate(ParseUnsigned(s[1..]))
    else if |s| > 0 && s[0] == '+' then ParseUnsigned(s[1..])
    else ParseUnsigned(s)
  }

  function Negate(v: Value): Value {
    match v
    case NaN => NaN
    case Num(x) => Num(-x)
  }

  /** The unsigned part of `Parse`: digits, then optionally a point and digits. */
  function ParseUnsigned(body: string): (v: Value)
    ensures v.Num? ==> v.x >= 0.0
    ensures |body| > 0 && IsDigit(body[0]) ==> v.Num?
    ensures body == [] || (!IsDigit(body[0]) && body[0] != '.') ==> v == NaN
  {
    var whole := body[..DigitRun(body)];
    var rest := body[|whole|..];
    var fraction := if |rest| > 0 && rest[0] == '.' then rest[1..][..DigitRun(rest[1..])] else [];
    if whole == [] && fraction == [] then NaN
    else Num(DigitsValue(whole) as real + DigitsValue(fraction) as real / Pow10(|fraction|) as real)
  }

  /** The number of fraction digits `ToText` writes at most. */
  const FractionDigits: nat := 16
  const Scale: nat := 10_000_000_000_000_000

  /** The last `width` decimal digits of `n`, with leading zeros. */
  function FixedDigits(n: nat, width: nat): (s: string)
    ensures |s| == width && AllDigits(s)
  {
    if width == 0 then [] else FixedDigits(n / 10, width - 1) + [DigitChar(n % 10)]
  }

  function DropTrailingZeros(s: string): (r: string)
    ensures |r| <= |s| && r == s[..|r|]
    ensures r != [] ==> r[|r| - 1] != '0'
    ensures forall k :: |r| <= k < |s| ==> s[k] == '0'
  {
    if s != [] && s[|s| - 1] == '0' then DropTrailingZeros(s[..|s| - 1]) else s
  }

  /** The text of an integer, with a leading minus sign when it is negative. */
  function IntText(n: int): (s: string)
    ensures |s| > 0
  {
    if n < 0 then "-" + Digits(-n) else Digits(n)
  }

  /**
   * `String(v)`: `"NaN"`, or an optional minus sign, the integer part, and
   * the fraction digits (at most `FractionDigits`, truncated, trailing zeros
   * dropped) after a point when there are any.
   */
  function ToText(v: Value): (s: string)
    ensures |s| > 0
    ensures s == "NaN" || s[0] == '-' || IsDigit(s[0])
  {
    match v
    case NaN => "NaN"
    case Num(x) =>
      var magnitude := if x < 0.0 then -x else x;
      var scaled: int := (magnitude * Scale as real).Floor;
      assert scaled >= 0;
      var fraction := scaled % Scale;
      var text := Digits(scaled / Scale) + (if fraction == 0 then "" else "." + DropTrailingZeros(FixedDigits(fraction, FractionDigits)));
      if x < 0.0 && scaled != 0 then "-" + text else text
  }

  lemma {:induction false} DigitsValueOfDigits(n: nat)
    ensures DigitsValue(Digits(n)) == n
  {
    if n >= 10 {
      DigitsValueOfDigits(n / 10);
      var s := Digits(n);
      assert s[..|s| - 1] == Digits(n / 10);
    }
  }

  /** A run of digits is read as the number it denotes. */
  lemma ParseUnsignedDigits(d: string)
    requires |d| > 0 && AllDigits(d)
    ensures ParseUnsigned(d) == Num(DigitsValue(d) as real)
  {
    var n := DigitRun(d);
    assert n == |d|;
    var whole := d[..n];
    assert whole == d;
    var rest := d[|whole|..];
    assert rest == [];
    assert DigitsValue([]) == 0 && Pow10(0) == 1;
  }

  /** Reading back the text of an integer gives that integer. */
  lemma ParseIntText(n: int)
    ensures Parse(IntText(n)) == Num(n as real)
  {
    var m: nat := if n < 0 then -n else n;
    DigitsValueOfDigits(m);
    ParseUnsignedDigits(Digits(m));
    if n < 0 {
      assert IntText(n)[1..] == Digits(m);
    }
  }

  /** An integral value is written as the text of its integer. */
  lemma ToTextOfInt(n: int)
    ensures ToText(Num(n as real)) == IntText(n)
  {
    var m: nat := if n < 0 then -n else n;
    var x := n as real;
    var magnitude := if x < 0.0 then -x else x;
    assert magnitude == m as real;
    assert magnitude * Scale as real == (m * Scale) as real;
    var scaled := (magnitude * Scale as real).Floor;
    assert scaled == m * Scale;
    assert scaled / Scale == m && scaled % Scale == 0;
  }

  /** Integers survive a trip through the calculator's text buffer. */
  lemma IntRoundTrip(n: int)
    ensures Parse(ToText(Num(n as real))) == Num(n as real)
  {
    ToTextOfInt(n);
    ParseIntText(n);
  }
}
