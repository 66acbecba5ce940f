/**
 * The two JavaScript conversions between numbers and text that the form
 * uses: `String(n)` for an integer-valued number and `parseFloat(s)`.
 * Numbers are exact reals here; binary floating-point rounding is not modelled.
 */
module JsNumber {
  import opened Wrappers

  predicate IsDigit(c: char) {
    '0' <= c <= '9'
  }

  predicate AllDigits(s: string) {
    forall i :: 0 <= i < |s| ==> IsDigit(s[i])
  }

  function DigitValue(c: char): (d: nat)
    requires IsDigit(c)
    ensures d < 10
  {
    c as int - '0' as int
  }

  function DigitChar(d: nat): (c: char)
    requires d < 10
    ensures IsDigit(c) && DigitValue(c) == d
  {
    ('0' as int + d) as char
  }

  /** The value of a run of decimal digits, most significant first; the empty run is 0. */
  function DigitsValue(s: string): nat
    requires AllDigits(s)
  {
    if s == [] then 0 else DigitsValue(s[..|s| - 1]) * 10 + DigitValue(s[|s| - 1])
  }

  /** `x` times ten to the power `e`, one decimal place at a time. */
  function Shift(x: real, e: int): (r: real)
    ensures x >= 0.0 ==> r >= 0.0
    decreases if e < 0 then -e else e
  {
    if e == 0 then x
    else if e > 0 then Shift(x * 10.0, e - 1)
    else Shift(x / 10.0, e + 1)
  }

  /** The decimal numeral of `n`, without leading zeros. */
  function NatToString(n: nat): (r: string)
    ensures |r| >= 1 && AllDigits(r)
    ensures r[0] == '0' ==> n == 0
  {
    if n < 10 then [DigitChar(n)] else NatToString(n / 10) + [DigitChar(n % 10)]
  }

  /** `String(n)` for an integer number `n` (of magnitude below 10^21, where JavaScript switches to exponent form). */
  function IntToString(n: int): (r: string)
    ensures |r| >= 1
    ensures r[0] == '-' <==> n < 0
    ensures n >= 0 ==> AllDigits(r)
  {
    if n < 0 then "-" + NatToString(-n) else NatToString(n)
  }

  lemma DigitsValueSnoc(s: string, c: char)
    requires AllDigits(s) && IsDigit(c)
    ensures AllDigits(s + [c]) && DigitsValue(s + [c]) == DigitsValue(s) * 10 + DigitValue(c)
  {
    assert (s + [c])[..|s|] == s;
  }

  /** Reading back the numeral of `n` gives `n`. */
  lemma {:induction false} NatToStringValue(n: nat)
    ensures DigitsValue(NatToString(n)) == n
  {
    if n >= 10 {
      NatToStringValue(n / 10);
      DigitsValueSnoc(NatToString(n / 10), DigitChar(n % 10));
    }
  }

  /**
   * The characters `parseFloat` skips before a number: StrWhiteSpaceChar of
   * ECMAScript, that is the white space and line terminator code points.
   */
  predicate IsJsWhiteSpace(c: char) {
    c == '\t' || c == '\n' || c == '\U{B}' || c == '\U{C}' || c == '\r' || c == ' '
    || c == '\U{A0}' || c == '\U{1680}' || ('\U{2000}' <= c <= '\U{200A}')
    || c == '\U{2028}' || c == '\U{2029}' || c == '\U{202F}' || c == '\U{205F}'
    || c == '\U{3000}' || c == '\U{FEFF}'
  }

  /** `s` without its leading white space. */
  function TrimStart(s: string): (r: string)
    ensures |r| <= |s| && r == s[|s| - |r|..]
    ensures r == [] || !IsJsWhiteSpace(r[0])
  {
    if s != [] && IsJsWhiteSpace(s[0]) then TrimStart(s[1..]) else s
  }

  /** Length of the longest prefix of `s` made of digits. */
  function DigitRun(s: string): (k: nat)
    ensures k <= |s| && AllDigits(s[..k])
    ensures k < |s| ==> !IsDigit(s[k])
  {
    if s == [] || !IsDigit(s[0]) then 0
    else
      var k := 1 + DigitRun(s[1..]);
      assert s[..k] == [s[0]] + s[1..][..k - 1];
      k
  }

  /** The value of the longest digit prefix of `s`. */
  function LeadingDigitsValue(s: string): nat {
    DigitsValue(s[..DigitRun(s)])
  }

  /**
   * The exponent part at the start of `w`, when `w` starts with `e` or `E`,
   * an optional sign and at least one digit; 0 otherwise (the letter is then
   * not part of the number).
   */
  function Exponent(w: string): int {
    if |w| >= 2 && (w[0] == 'e' || w[0] == 'E') then
      var k := if w[1] == '+' || w[1] == '-' then 2 else 1;
      if k < |w| && IsDigit(w[k]) then
        var m := LeadingDigitsValue(w[k..]) as int;
        if w[1] == '-' then -m else m
      else 0
    else 0
  }


  /**
   * An unsigned decimal literal split into its parts: the digits before the
   * `.`, the digits after it, and the exponent.
   */
  datatype Literal = Literal(whole: string, fraction: string, exponent: int)

  /** A number as `parseFloat` reads it: a sign and an unsigned literal. */
  datatype Numeral = Numeral(negative: bool, literal: Literal)

  lemma AllDigitsConcat(a: string, b: string)
    requires AllDigits(a) && AllDigits(b)
    ensures AllDigits(a + b)
  {
    forall i | 0 <= i < |a + b| ensures IsDigit((a + b)[i]) {
      if i >= |a| { assert (a + b)[i] == b[i - |a|]; }
    }
  }

  /**
   * The value a literal denotes: all its digits read as one integer, scaled
   * by the exponent less the number of fraction digits.
   */
  function LiteralValue(l: Literal): (v: real)
    requires AllDigits(l.whole) && AllDigits(l.fraction)
    ensures v >= 0.0
  {
    AllDigitsConcat(l.whole, l.fraction);
    Shift(DigitsValue(l.whole + l.fraction) as real, l.exponent - |l.fraction|)
  }

  predicate WellFormed(n: Numeral) {
    AllDigits(n.literal.whole) && AllDigits(n.literal.fraction)
  }

  /** The value of a numeral: its literal's value, negated after a `-`. */
  function NumeralValue(n: Numeral): real
    requires WellFormed(n)
  {
    if n.negative then -LiteralValue(n.literal) else LiteralValue(n.literal)
  }

  /**
   * The longest prefix of `u` that is an unsigned decimal literal (digits,
   * an optional `.` and fraction digits, at least one digit in all, an
   * optional exponent), or `None` when there is none.
   */
  function ScanUnsigned(u: string): (r: Option<Literal>)
    ensures r.Some? ==> AllDigits(r.value.whole) && AllDigits(r.value.fraction)
    ensures r.Some? ==> |r.value.whole| + |r.value.fraction| > 0
  {
    var i := DigitRun(u);
    var hasDot := i < |u| && u[i] == '.';
    var f := if hasDot then DigitRun(u[i + 1..]) else 0;
    var end := if hasDot then i + 1 + f else i;
    if i == 0 && f == 0 then None
    else Some(Literal(u[..i], if hasDot then u[i + 1..][..f] else "", Exponent(u[end..])))
  }

  /**
   * The numeral `parseFloat(s)` reads: leading white space is skipped, then
   * an optional sign and the longest unsigned decimal literal after it;
   * `None` when there is none. The literal `Infinity` is not recognised
   * (see the README).
   */
  function ScanFloat(s: string): (r: Option<Numeral>)
    ensures r.Some? ==> WellFormed(r.value)
  {
    var t := TrimStart(s);
    var k := if |t| > 0 && (t[0] == '+' || t[0] == '-') then 1 else 0;
    match ScanUnsigned(t[k..])
    case None => None
    case Some(l) => Some(Numeral(k == 1 && t[0] == '-', l))
  }

  /** `parseFloat(s)`: the value of the numeral at the start of `s`; `None` is `NaN`. */
  function ParseFloat(s: string): (r: Option<real>)
  {
    match ScanFloat(s)
    case None => None
    case Some(n) => Some(NumeralValue(n))
  }

  /** `x || 0` for the result of `parseFloat`: `NaN` (and zero) become 0. */
  function OrZero(x: Option<real>): real {
    match x
    case None => 0.0
    case Some(v) => v
  }

  // ---------------------------------------------------------------------
  // Scanning

  lemma {:induction false} DigitRunOfDigits(a: string, rest: string)
    requires AllDigits(a)
    requires rest == [] || !IsDigit(rest[0])
    ensures DigitRun(a + rest) == |a|
  {
    if a != [] {
      assert (a + rest)[1..] == a[1..] + rest;
      DigitRunOfDigits(a[1..], rest);
    } else {
      assert a + rest == rest;
    }
  }

  /** The exponent part is empty when `w` does not start with `e` or `E`. */
  lemma NoExponent(w: string)
    requires w == [] || (w[0] != 'e' && w[0] != 'E')
    ensures Exponent(w) == 0
  {
  }

  /** Where the digit run of `a + rest` ends, and what lies on either side. */
  lemma IntegerParts(a: string, rest: string)
    requires AllDigits(a)
    requires rest == [] || !IsDigit(rest[0])
    ensures DigitRun(a + rest) == |a|
    ensures (a + rest)[..|a|] == a && (a + rest)[|a|..] == rest
  {
    DigitRunOfDigits(a, rest);
  }

  lemma RegroupAround(a: string, c: char, b: string, rest: string)
    ensures a + [c] + b + rest == a + ([c] + (b + rest))
  {
  }

  /** Where the digit runs of `a + "." + b + rest` end, and what lies between them. */
  lemma DecimalParts(a: string, b: string, rest: string)
    requires AllDigits(a) && AllDigits(b)
    requires rest == [] || !IsDigit(rest[0])
    ensures var u := a + "." + b + rest;
            DigitRun(u) == |a| && u[|a|] == '.' && u[..|a|] == a
            && u[|a| + 1..] == b + rest
            && DigitRun(b + rest) == |b| && (b + rest)[..|b|] == b
            && u[|a| + 1 + |b|..] == rest
  {
    var v := b + rest;
    var w := "." + v;
    var u := a + w;
    RegroupAround(a, '.', b, rest);
    DigitRunOfDigits(a, w);
    DigitRunOfDigits(b, rest);
    assert u[|a|..] == w;
    assert u[|a| + 1..] == w[1..] == v;
    assert v[|b|..] == rest;
  }

  /** A digit run followed by something that cannot continue a number is a whole literal. */
  lemma ScanInteger(a: string, rest: string)
    requires AllDigits(a) && a != []
    requires rest == [] || (!IsDigit(rest[0]) && rest[0] != '.' && rest[0] != 'e' && rest[0] != 'E')
    ensures ScanUnsigned(a + rest) == Some(Literal(a, "", 0))
  {
    IntegerParts(a, rest);
    NoExponent(rest);
  }

  /**
   * Digits, a `.` and fraction digits (at least one digit in all), followed
   * by something that cannot continue a number, are a literal with a fraction.
   */
  lemma ScanDecimal(a: string, b: string, rest: string)
    requires AllDigits(a) && AllDigits(b) && |a| + |b| > 0
    requires rest == [] || (!IsDigit(rest[0]) && rest[0] != 'e' && rest[0] != 'E')
    ensures ScanUnsigned(a + "." + b + rest) == Some(Literal(a, b, 0))
  {
    DecimalParts(a, b, rest);
    NoExponent(rest);
  }

  /** Text that starts with neither a digit nor `.` holds no literal. */
  lemma ScanNothing(rest: string)
    requires rest == [] || (!IsDigit(rest[0]) && rest[0] != '.')
    ensures ScanUnsigned(rest) == None
  {
    assert DigitRun(rest) == 0;
  }

  /** A `.` with no digit on either side holds no literal. */
  lemma ScanLoneDot(rest: string)
    requires rest == [] || !IsDigit(rest[0])
    ensures ScanUnsigned("." + rest) == None
  {
    var u := "." + rest;
    assert DigitRun(u) == 0;
    assert u[1..] == rest;
    assert DigitRun(rest) == 0;
  }

  /** Text that starts with neither white space nor a sign is read as an unsigned literal. */
  lemma ScanFloatUnsigned(u: string)
    requires u == [] || (!IsJsWhiteSpace(u[0]) && u[0] != '+' && u[0] != '-')
    ensures ScanFloat(u) == match ScanUnsigned(u) case None => None case Some(l) => Some(Numeral(false, l))
  {
    assert TrimStart(u) == u;
    assert u[0..] == u;
  }

  /** A leading `-` makes the literal after it negative. */
  lemma ScanFloatMinus(u: string)
    ensures ScanFloat("-" + u) == match ScanUnsigned(u) case None => None case Some(l) => Some(Numeral(true, l))
  {
    var s := "-" + u;
    assert TrimStart(s) == s;
    assert s[1..] == u;
  }

  /** Leading white space is skipped. */
  lemma ScanFloatSkipsWhiteSpace(c: char, s: string)
    requires IsJsWhiteSpace(c)
    ensures ScanFloat([c] + s) == ScanFloat(s)
  {
    TrimStartSkips(c, s);
  }

  /** `TrimStart` removes white space only: every character it skips is white space. */
  lemma {:induction false} TrimStartSkipsOnlyWhiteSpace(s: string)
    ensures forall i :: 0 <= i < |s| - |TrimStart(s)| ==> IsJsWhiteSpace(s[i])
  {
    if s != [] && IsJsWhiteSpace(s[0]) {
      TrimStartSkipsOnlyWhiteSpace(s[1..]);
      forall i | 1 <= i < |s| - |TrimStart(s)| ensures IsJsWhiteSpace(s[i]) {
        assert s[i] == s[1..][i - 1];
      }
    }
  }

  lemma TrimStartSkips(c: char, s: string)
    requires IsJsWhiteSpace(c)
    ensures TrimStart([c] + s) == TrimStart(s)
  {
    var u := [c] + s;
    assert u[0] == c && u[1..] == s;
  }

  // ---------------------------------------------------------------------
  // Values

  lemma LiteralValueOfDigits(a: string, b: string)
    requires AllDigits(a) && AllDigits(b)
    ensures AllDigits(a + b)
    ensures LiteralValue(Literal(a, b, 0)) == Shift(DigitsValue(a + b) as real, -|b|)
  {
    AllDigitsConcat(a, b);
  }

  /** A literal without fraction or exponent denotes its digits' value. */
  lemma WholeLiteralValue(a: string)
    requires AllDigits(a)
    ensures LiteralValue(Literal(a, "", 0)) == DigitsValue(a) as real
  {
    LiteralValueOfDigits(a, "");
    assert a + "" == a;
  }

  /** `parseFloat` yields the value of the numeral it reads. */
  lemma ParseFloatOfNumeral(s: string, n: Numeral)
    requires ScanFloat(s) == Some(n)
    ensures WellFormed(n) && ParseFloat(s) == Some(NumeralValue(n))
  {
  }

  /** The value `parseFloat` reads is never negative when the text has no `-` where the sign would be. */
  lemma ParseFloatUnsignedNonNegative(u: string)
    requires u == [] || (!IsJsWhiteSpace(u[0]) && u[0] != '+' && u[0] != '-')
    ensures ParseFloat(u).Some? ==> ParseFloat(u).value >= 0.0
  {
    ScanFloatUnsigned(u);
  }

  /** Digits followed by something that cannot continue a number read as the digits' value. */
  lemma ParseFloatInteger(a: string, rest: string)
    requires AllDigits(a) && a != []
    requires rest == [] || (!IsDigit(rest[0]) && rest[0] != '.' && rest[0] != 'e' && rest[0] != 'E')
    ensures ParseFloat(a + rest) == Some(DigitsValue(a) as real)
  {
    var l := Literal(a, "", 0);
    assert (a + rest)[0] == a[0];
    assert ScanUnsigned(a + rest) == Some(l) by { ScanInteger(a, rest); }
    assert ScanFloat(a + rest) == Some(Numeral(false, l)) by { ScanFloatUnsigned(a + rest); }
    assert LiteralValue(l) == DigitsValue(a) as real by { WholeLiteralValue(a); }
    ParseFloatOfNumeral(a + rest, Numeral(false, l));
  }

  /**
   * Digits, a `.`, fraction digits (at least one digit in all), then
   * something that cannot continue a number: the value is all the digits
   * read as one integer, shifted right by the number of fraction digits.
   */
  lemma ParseFloatDecimal(a: string, b: string, rest: string)
    requires AllDigits(a) && AllDigits(b) && |a| + |b| > 0
    requires rest == [] || (!IsDigit(rest[0]) && rest[0] != 'e' && rest[0] != 'E')
    ensures AllDigits(a + b)
    ensures ParseFloat(a + "." + b + rest) == Some(Shift(DigitsValue(a + b) as real, -|b|))
  {
    var u := a + "." + b + rest;
    var l := Literal(a, b, 0);
    assert u[0] == if a == [] then '.' else a[0];
    assert ScanUnsigned(u) == Some(l) by { ScanDecimal(a, b, rest); }
    assert ScanFloat(u) == Some(Numeral(false, l)) by { ScanFloatUnsigned(u); }
    LiteralValueOfDigits(a, b);
    ParseFloatOfNumeral(u, Numeral(false, l));
  }

  /** Text that starts with none of white space, a sign, a digit or `.` is `NaN`. */
  lemma ParseFloatNothing(rest: string)
    requires rest == [] || (!IsJsWhiteSpace(rest[0]) && rest[0] != '+' && rest[0] != '-'
                            && !IsDigit(rest[0]) && rest[0] != '.')
    ensures ParseFloat(rest) == None
  {
    ScanNothing(rest);
    ScanFloatUnsigned(rest);
  }

  /** A `.` with no digit on either side is `NaN`. */
  lemma ParseFloatLoneDot(rest: string)
    requires rest == [] || !IsDigit(rest[0])
    ensures ParseFloat("." + rest) == None
  {
    ScanLoneDot(rest);
    ScanFloatUnsigned("." + rest);
  }

  /** A `-` before a literal negates its value. */
  lemma ParseFloatNegative(u: string, l: Literal)
    requires ScanUnsigned(u) == Some(l)
    ensures ParseFloat("-" + u) == Some(-LiteralValue(l))
  {
    assert ScanFloat("-" + u) == Some(Numeral(true, l)) by { ScanFloatMinus(u); }
    ParseFloatOfNumeral("-" + u, Numeral(true, l));
  }

  // ---------------------------------------------------------------------
  // Round trip

  /** The numeral of an integer is its magnitude's numeral, after a `-` when negative. */
  lemma IntToStringCases(n: int)
    ensures n < 0 ==> IntToString(n) == "-" + NatToString(-n)
    ensures n >= 0 ==> IntToString(n) == NatToString(n)
  {
  }

  /** The numeral of `m` scans as a whole literal of its digits. */
  lemma {:induction false} ScanNatToString(m: nat)
    ensures ScanUnsigned(NatToString(m)) == Some(Literal(NatToString(m), "", 0))
    ensures LiteralValue(Literal(NatToString(m), "", 0)) == m as real
  {
    var digits := NatToString(m);
    assert digits + "" == digits;
    ScanInteger(digits, "");
    NatToStringValue(m);
    WholeLiteralValue(digits);
  }

  lemma {:induction false} NonNegativeRoundTrip(n: int)
    requires n >= 0
    ensures ParseFloat(IntToString(n)) == Some(n as real)
  {
    var digits := NatToString(n);
    var l := Literal(digits, "", 0);
    IntToStringCases(n);
    ScanNatToString(n);
    assert ScanFloat(digits) == Some(Numeral(false, l)) by { ScanFloatUnsigned(digits); }
    ParseFloatOfNumeral(digits, Numeral(false, l));
  }

  lemma {:induction false} NegativeRoundTrip(m: nat)
    ensures ParseFloat("-" + NatToString(m)) == Some(-(m as real))
  {
    var digits := NatToString(m);
    ScanNatToString(m);
    ParseFloatNegative(digits, Literal(digits, "", 0));
  }

  /** `parseFloat(String(n))` is `n` for every integer `n`. */
  lemma {:induction false} IntToStringRoundTrip(n: int)
    ensures ParseFloat(IntToString(n)) == Some(n as real)
  {
    if n < 0 {
      var m: nat := -n;
      assert IntToString(n) == "-" + NatToString(m);
      assert -(m as real) == n as real;
      NegativeRoundTrip(m);
    } else {
      NonNegativeRoundTrip(n);
    }
  }
}
