/**
 * The two JavaScript number conversions the counter relies on: `parseInt(value, 10)` and the
 * text React renders for an integer-valued number. Numbers are exact integers or NaN.
 */
module JsNumber {

  /** An integer-valued JavaScript number, or NaN. Negative zero is identified with zero. */
  datatype Num = Int(i: int) | NaN

  predicate IsDigit(c: char) {
    '0' <= c <= '9'
  }

  predicate AllDigits(s: string) {
    forall k | 0 <= k < |s| :: IsDigit(s[k])
  }

  function DigitValue(c: char): (d: nat)
    requires IsDigit(c)
    ensures d < 10
  {
    c as int - '0' as int
  }

  function DigitChar(d: nat): (c: char)
    requires d < 10
    ensures IsDigit(c) && DigitValue(c) == d
  {
    (d + '0' as int) as char
  }

  /** Base-10 digits of a natural number, most significant first, without leading zeros. */
  function Decimal(n: nat): (s: string)
    ensures |s| > 0 && AllDigits(s)
    ensures |s| > 1 ==> s[0] != '0'
    decreases n
  {
    if n < 10 then [DigitChar(n)] else Decimal(n / 10) + [DigitChar(n % 10)]
  }

  /** The value of a string of decimal digits. */
  function DigitsValue(s: string): nat
    requires AllDigits(s)
    decreases |s|
  {
    if s == [] then 0 else DigitsValue(s[..|s| - 1]) * 10 + DigitValue(s[|s| - 1])
  }

  /** `Decimal` and `DigitsValue` are inverse. */
  lemma {:induction false} DecimalValue(n: nat)
    ensures DigitsValue(Decimal(n)) == n
    decreases n
  {
    if n >= 10 {
      DecimalValue(n / 10);
      var s := Decimal(n);
      assert s[..|s| - 1] == Decimal(n / 10);
    }
  }

  /** The characters `parseInt` skips before the number: the white space and line terminators of ECMAScript. */
  predicate IsWhiteSpace(c: char) {
    c == '\t' || c == '\n' || c == '\U{B}' || c == '\U{C}' || c == '\r' || c == ' '
    || c == '\U{A0}' || c == '\U{1680}' || ('\U{2000}' <= c <= '\U{200A}')
    || c == '\U{2028}' || c == '\U{2029}' || c == '\U{202F}' || c == '\U{205F}'
    || c == '\U{3000}' || c == '\U{FEFF}'
  }

  /** `s` without its leading white space. */
  function TrimStart(s: string): (r: string)
    ensures |r| <= |s| && r == s[|s| - |r|..]
    ensures r == [] || !IsWhiteSpace(r[0])
    ensures forall k | 0 <= k < |s| - |r| :: IsWhiteSpace(s[k])
    decreases |s|
  {
    if s != [] && IsWhiteSpace(s[0]) then TrimStart(s[1..]) else s
  }

  /** The longest prefix of `s` made of decimal digits. */
  function LeadingDigits(s: string): (d: string)
    ensures |d| <= |s| && d == s[..|d|] && AllDigits(d)
    ensures |d| < |s| ==> !IsDigit(s[|d|])
    decreases |s|
  {
    if s != [] && IsDigit(s[0]) then [s[0]] + LeadingDigits(s[1..]) else []
  }

  /**
   * `parseInt(s, 10)`: skip leading white space, read an optional sign, then the longest run
   * of decimal digits; NaN when that run is empty.
   */
  function ParseInt(s: string): Num {
    var t := TrimStart(s);
    var negative := t != [] && t[0] == '-';
    var unsigned := if t != [] && (t[0] == '-' || t[0] == '+') then t[1..] else t;
    var digits := LeadingDigits(unsigned);
    var value: int := if digits == [] then 0 else DigitsValue(digits);
    if digits == [] then NaN
    else if negative then Int(-value)
    else Int(value)
  }

  /** Whatever follows the digits of a number, unless it is itself a digit, is ignored. */
  predicate EndsNumber(rest: string) {
    rest == [] || !IsDigit(rest[0])
  }

  /** `parseInt` reads back the decimal text of any natural number, whatever non-digit text follows it. */
  lemma ParseIntOfDecimal(n: nat, rest: string)
    requires EndsNumber(rest)
    ensures ParseInt(Decimal(n) + rest) == Int(n)
  {
    var s := Decimal(n) + rest;
    assert IsDigit(s[0]);
    assert !IsWhiteSpace(s[0]) && s[0] != '-' && s[0] != '+';
    assert TrimStart(s) == s;
    LeadingDigitsOfDigits(Decimal(n), rest);
    assert LeadingDigits(s) == Decimal(n);
    DecimalValue(n);
    assert DigitsValue(LeadingDigits(s)) == n;
  }

  /** The leading digits of a digit string followed by a non-digit are that digit string. */
  lemma {:induction false} LeadingDigitsOfDigits(d: string, rest: string)
    requires AllDigits(d) && EndsNumber(rest)
    ensures LeadingDigits(d + rest) == d
    decreases |d|
  {
    if d != [] {
      LeadingDigitsOfDigits(d[1..], rest);
      assert (d + rest)[1..] == d[1..] + rest;
    } else {
      assert d + rest == rest;
    }
  }

  /** The text of a number as React renders it (integers below 10^21 only). */
  function Show(x: Num): (s: string)
    ensures s != []
  {
    match x
    case NaN => "NaN"
    case Int(i) => if i < 0 then "-" + Decimal(-i) else Decimal(i)
  }

  /** `parseInt` inverts the rendered text of every number, NaN included. */
  lemma ParseIntOfShow(x: Num)
    ensures ParseInt(Show(x)) == x
  {
    match x
    case NaN => ParseIntOfNaNText(Show(x));
    case Int(i) =>
      if i < 0 {
        ParseIntOfNegative(-i, Show(x));
      } else {
        ParseIntOfDecimal(i, []);
        assert Decimal(i) + [] == Decimal(i);
      }
  }

  lemma ParseIntOfNaNText(s: string)
    requires s == "NaN"
    ensures ParseInt(s) == NaN
  {
    assert !IsWhiteSpace(s[0]) && !IsDigit(s[0]);
    assert TrimStart(s) == s;
  }

  lemma ParseIntOfNegative(m: nat, s: string)
    requires s == "-" + Decimal(m)
    ensures ParseInt(s) == Int(-(m as int))
  {
    assert s[0] == '-' && !IsWhiteSpace(s[0]);
    assert TrimStart(s) == s;
    assert s[1..] == Decimal(m) + [];
    LeadingDigitsOfDigits(Decimal(m), []);
    assert LeadingDigits(s[1..]) == Decimal(m);
    DecimalValue(m);
  }
}
