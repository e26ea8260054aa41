/**
  JavaScript's global `parseFloat` and the `<` comparison of its result with a
  number, over exact reals. `parseFloat` skips leading white space and reads the
  longest prefix of what is left that is an ECMAScript StrDecimalLiteral: an
  optional sign followed by `Infinity`, or by decimal digits with an optional
  fraction and an optional exponent. When no such prefix exists the result is NaN.
 */
module JsNumber {

  /** A JavaScript number, with finite values kept as exact reals. */
  datatype Num = NaN | PosInfinity | NegInfinity | Finite(value: real)

  predicate IsDigit(c: char) {
    '0' <= c <= '9'
  }

  function DigitValue(c: char): (d: nat)
    requires IsDigit(c)
    ensures d < 10
  {
    (c as int) - ('0' as int)
  }

  predicate AllDigits(s: string) {
    forall i :: 0 <= i < |s| ==> IsDigit(s[i])
  }

  /** The characters ECMAScript's StrWhiteSpaceChar admits: WhiteSpace and LineTerminator. */
  predicate IsStrWhiteSpace(c: char) {
    || c == '\t' || c == '\n' || c == '\U{000B}' || c == '\U{000C}' || c == '\r'
    || c == ' ' || c == '\U{00A0}' || c == '\U{1680}'
    || ('\U{2000}' <= c <= '\U{200A}')
    || c == '\U{2028}' || c == '\U{2029}' || c == '\U{202F}' || c == '\U{205F}'
    || c == '\U{3000}' || c == '\U{FEFF}'
  }

  /** `s` with its leading white space removed. */
  function TrimStart(s: string): (r: string)
    ensures |r| <= |s| && r == s[|s| - |r|..]
    ensures forall i :: 0 <= i < |s| - |r| ==> IsStrWhiteSpace(s[i])
    ensures r != [] ==> !IsStrWhiteSpace(r[0])
  {
    if s != [] && IsStrWhiteSpace(s[0]) then TrimStart(s[1..]) else s
  }

  /** The length of the run of decimal digits that `s` starts with. */
  function LeadingDigits(s: string): (n: nat)
    ensures n <= |s|
    ensures AllDigits(s[..n])
    ensures n < |s| ==> !IsDigit(s[n])
  {
    if s != [] && IsDigit(s[0]) then
      var n := 1 + LeadingDigits(s[1..]);
      assert s[..n] == [s[0]] + s[1..][..n - 1];
      n
    else
      0
  }

  /** The value of a string of decimal digits, most significant first. */
  function DigitsValue(s: string): (v: nat)
    requires AllDigits(s)
  {
    if s == [] then 0 else 10 * DigitsValue(s[..|s| - 1]) + DigitValue(s[|s| - 1])
  }

  function Pow10(n: nat): (r: real)
    ensures r >= 1.0
  {
    if n == 0 then 1.0 else 10.0 * Pow10(n - 1)
  }

  /** `m` times ten to the power `e`. */
  function Scale(m: real, e: int): real {
    if e >= 0 then m * Pow10(e) else m / Pow10(-e)
  }

  /**
    The value of an ExponentPart at the start of `t` (`e` or `E`, an optional
    sign, at least one digit), or 0 when `t` does not start with one: such a
    trailing `e` is simply not part of the longest numeric prefix.
   */
  function Exponent(t: string): int {
    if |t| < 2 || (t[0] != 'e' && t[0] != 'E') then 0
    else if t[1] == '+' || t[1] == '-' then
      var n := LeadingDigits(t[2..]);
      var v: int := DigitsValue(t[2..][..n]);
      if t[1] == '-' then -v else v
    else
      DigitsValue(t[1..][..LeadingDigits(t[1..])])
  }

  /** An unsigned StrDecimalLiteral at the start of `t`, or NaN. */
  function ParseUnsigned(t: string): Num {
    if |t| >= 8 && t[..8] == "Infinity" then
      PosInfinity
    else
      var n := LeadingDigits(t);
      var hasDot := n < |t| && t[n] == '.';
      var f := if hasDot then LeadingDigits(t[n + 1..]) else 0;
      if n == 0 && f == 0 then
        NaN
      else
        var whole := DigitsValue(t[..n]) as real;
        var fraction := if hasDot then DigitsValue(t[n + 1..][..f]) as real / Pow10(f) else 0.0;
        var rest := if hasDot then t[n + 1 + f..] else t[n..];
        Finite(Scale(whole + fraction, Exponent(rest)))
  }

  function Negate(x: Num): Num {
    match x
    case NaN => NaN
    case PosInfinity => NegInfinity
    case NegInfinity => PosInfinity
    case Finite(v) => Finite(-v)
  }

  /** `parseFloat(s)`. */
  function ParseFloat(s: string): Num {
    var t := TrimStart(s);
    if t != [] && t[0] == '-' then Negate(ParseUnsigned(t[1..]))
    else if t != [] && t[0] == '+' then ParseUnsigned(t[1..])
    else ParseUnsigned(t)
  }

  /** `x < y` for a number `x` and a finite `y`: every comparison with NaN is false. */
  predicate LessThan(x: Num, y: real) {
    match x
    case NaN => false
    case NegInfinity => true
    case PosInfinity => false
    case Finite(v) => v < y
  }

  /** Whether `u`, the text after an optional sign, begins a numeric literal. */
  predicate BeginsNumber(u: string) {
    || (|u| >= 8 && u[..8] == "Infinity")
    || (|u| > 0 && IsDigit(u[0]))
    || (|u| > 1 && u[0] == '.' && IsDigit(u[1]))
  }

  /** Whether `s` begins, after white space and an optional sign, a numeric literal. */
  predicate LooksNumeric(s: string) {
    var t := TrimStart(s);
    if t != [] && (t[0] == '-' || t[0] == '+') then BeginsNumber(t[1..]) else BeginsNumber(t)
  }

  /** `parseFloat` yields NaN exactly when the text does not begin with a number. */
  lemma ParseFloatNaN(s: string)
    ensures ParseFloat(s) == NaN <==> !LooksNumeric(s)
  {
    var t := TrimStart(s);
    var u := if t != [] && (t[0] == '-' || t[0] == '+') then t[1..] else t;
    ParseUnsignedNaN(u);
  }

  lemma ParseUnsignedNaN(u: string)
    ensures ParseUnsigned(u) == NaN <==> !BeginsNumber(u)
  {
    if |u| >= 8 && u[..8] == "Infinity" {
      assert ParseUnsigned(u) == PosInfinity;
    } else {
      var n := LeadingDigits(u);
      var hasDot := n < |u| && u[n] == '.';
      var f := if hasDot then LeadingDigits(u[n + 1..]) else 0;
      if |u| > 0 && IsDigit(u[0]) {
        assert n > 0;
        assert ParseUnsigned(u).Finite?;
      } else if |u| > 1 && u[0] == '.' && IsDigit(u[1]) {
        assert n == 0 && hasDot;
        assert f > 0;
        assert ParseUnsigned(u).Finite?;
      } else {
        assert n == 0;
        assert f == 0;
      }
    }
  }

  /** Leading white space does not change what `parseFloat` reads. */
  lemma {:induction false} ParseFloatSkipsWhiteSpace(ws: string, s: string)
    requires forall i :: 0 <= i < |ws| ==> IsStrWhiteSpace(ws[i])
    ensures ParseFloat(ws + s) == ParseFloat(s)
  {
    TrimStartSkips(ws, s);
  }

  lemma {:induction false} TrimStartSkips(ws: string, s: string)
    requires forall i :: 0 <= i < |ws| ==> IsStrWhiteSpace(ws[i])
    ensures TrimStart(ws + s) == TrimStart(s)
  {
    if ws != [] {
      assert (ws + s)[1..] == ws[1..] + s;
      TrimStartSkips(ws[1..], s);
    } else {
      assert ws + s == s;
    }
  }

  /**
    A run of digits followed by anything that cannot continue a number (a unit
    such as `cm`, or nothing) parses to the value of the digits.
   */
  lemma ParseFloatDigits(digits: string, rest: string)
    requires digits != [] && AllDigits(digits)
    requires rest != [] ==> !IsDigit(rest[0]) && rest[0] !in ".eE"
    ensures ParseFloat(digits + rest) == Finite(DigitsValue(digits) as real)
  {
    var t := digits + rest;
    assert t[0] == digits[0];
    DigitIsNotWhiteSpace(t[0]);
    assert TrimStart(t) == t;
    assert ParseFloat(t) == ParseUnsigned(t);
    ParseUnsignedDigits(digits, rest);
  }

  lemma DigitIsNotWhiteSpace(c: char)
    requires IsDigit(c)
    ensures !IsStrWhiteSpace(c) && c != '-' && c != '+'
  {
  }

  lemma ParseUnsignedDigits(digits: string, rest: string)
    requires digits != [] && AllDigits(digits)
    requires rest != [] ==> !IsDigit(rest[0]) && rest[0] !in ".eE"
    ensures ParseUnsigned(digits + rest) == Finite(DigitsValue(digits) as real)
  {
    var t := digits + rest;
    assert |t| >= 8 ==> t[..8] != "Infinity" by {
      if |t| >= 8 {
        assert t[..8][0] == digits[0];
      }
    }
    LeadingDigitsOf(digits, rest);
    assert t[..|digits|] == digits;
    assert t[|digits|..] == rest;
    assert Exponent(rest) == 0;
    assert Scale(DigitsValue(digits) as real + 0.0, 0) == DigitsValue(digits) as real;
  }

  lemma {:induction false} LeadingDigitsOf(digits: string, rest: string)
    requires AllDigits(digits)
    requires rest != [] ==> !IsDigit(rest[0])
    ensures LeadingDigits(digits + rest) == |digits|
  {
    if digits != [] {
      assert (digits + rest)[1..] == digits[1..] + rest;
      LeadingDigitsOf(digits[1..], rest);
    } else {
      assert digits + rest == rest;
    }
  }
}
