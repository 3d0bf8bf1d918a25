/** The JavaScript number built-ins the client relies on: `parseInt` without
    a radix, `parseFloat`, `isNaN`, multiplication of a parsed price by a
    parsed quantity, and `toString` of an integer.  A double is modelled as
    NaN, ±Infinity or an exact real (no rounding). */
module JsNumbers {
  import opened JsStrings

  datatype Number = NaN | Finite(value: real) | Infinity(negative: bool)

  /** `x > 0` on a double (false for NaN). */
  predicate IsPositive(x: Number) {
    match x
    case NaN => false
    case Finite(v) => v > 0.0
    case Infinity(neg) => !neg
  }

  /** `x <= 0` on a double (false for NaN). */
  predicate AtMostZero(x: Number) {
    match x
    case NaN => false
    case Finite(v) => v <= 0.0
    case Infinity(neg) => neg
  }

  /** `isNaN(x) || x <= 0` is exactly `!(x > 0)`. */
  lemma NotPositive(x: Number)
    ensures x.NaN? || AtMostZero(x) <==> !IsPositive(x)
  {
  }

  predicate IsDigit(c: char) { '0' <= c <= '9' }

  function DigitValue(c: char): (d: nat)
    requires IsDigit(c)
    ensures d < 10
  {
    c as int - '0' as int
  }

  function DigitChar(d: nat): (c: char)
    requires d < 10
    ensures IsDigit(c) && DigitValue(c) == d
  {
    ('0' as int + d) as char
  }

  predicate IsHexDigit(c: char) {
    IsDigit(c) || ('a' <= c <= 'f') || ('A' <= c <= 'F')
  }

  function HexDigitValue(c: char): (d: nat)
    requires IsHexDigit(c)
    ensures d < 16
  {
    if IsDigit(c) then DigitValue(c)
    else if 'a' <= c <= 'f' then c as int - 'a' as int + 10
    else c as int - 'A' as int + 10
  }

  predicate AllDigits(s: string) {
    forall i :: 0 <= i < |s| ==> IsDigit(s[i])
  }

  predicate AllHexDigits(s: string) {
    forall i :: 0 <= i < |s| ==> IsHexDigit(s[i])
  }

  /** Length of the longest run of decimal digits at the start of `s`. */
  function DigitRun(s: string): (n: nat)
    ensures n <= |s| && AllDigits(s[..n])
    ensures n == |s| || !IsDigit(s[n])
  {
    if s == [] || !IsDigit(s[0]) then 0
    else
      var n := DigitRun(s[1..]);
      assert s[..n + 1] == [s[0]] + s[1..][..n];
      n + 1
  }

  /** Length of the longest run of hexadecimal digits at the start of `s`. */
  function HexRun(s: string): (n: nat)
    ensures n <= |s| && AllHexDigits(s[..n])
    ensures n == |s| || !IsHexDigit(s[n])
  {
    if s == [] || !IsHexDigit(s[0]) then 0
    else
      var n := HexRun(s[1..]);
      assert s[..n + 1] == [s[0]] + s[1..][..n];
      n + 1
  }

  /** The value of a string of decimal digits, most significant first. */
  function DecimalValue(d: string): nat
    requires AllDigits(d)
  {
    if d == [] then 0 else DecimalValue(d[..|d| - 1]) * 10 + DigitValue(d[|d| - 1])
  }

  /** The value of a string of hexadecimal digits, most significant first. */
  function HexValue(d: string): nat
    requires AllHexDigits(d)
  {
    if d == [] then 0 else HexValue(d[..|d| - 1]) * 16 + HexDigitValue(d[|d| - 1])
  }

  /** The sign-free part of a numeric string, after one optional `+` or `-`. */
  function Unsigned(t: string): string {
    if |t| > 0 && (t[0] == '-' || t[0] == '+') then t[1..] else t
  }

  predicate NegativeSign(t: string) {
    |t| > 0 && t[0] == '-'
  }

  /** The digits `parseInt` reads after the sign: base 16 after a `0x` or
      `0X` prefix, base 10 otherwise; `None` when no digit follows. */
  function ParseIntDigits(u: string): Option<nat> {
    if |u| >= 2 && u[0] == '0' && (u[1] == 'x' || u[1] == 'X') then
      var n := HexRun(u[2..]);
      if n == 0 then None else Some(HexValue(u[2..][..n]))
    else
      var n := DigitRun(u);
      if n == 0 then None else Some(DecimalValue(u[..n]))
  }

  /** `parseInt(s)` with no radix; `None` stands for NaN.  Leading
      whitespace is skipped and one sign is read before the digits. */
  function ParseInt(s: string): Option<int> {
    var t := TrimStart(s);
    match ParseIntDigits(Unsigned(t))
    case None => None
    case Some(v) => Some(if NegativeSign(t) then 0 - v else v)
  }

  /** The exponent an `e`/`E` suffix denotes; 0 when there is no complete
      exponent part (then `parseFloat` does not consume it). */
  function ExponentOf(w: string): int {
    if |w| >= 2 && (w[0] == 'e' || w[0] == 'E') then
      var body := Unsigned(w[1..]);
      var k := DigitRun(body);
      if k == 0 then 0
      else if NegativeSign(w[1..]) then 0 - DecimalValue(body[..k])
      else DecimalValue(body[..k])
    else 0
  }

  /** `m` times 10 to the power `e`. */
  function Scale(m: real, e: int): real
    decreases if e >= 0 then e else -e
  {
    if e == 0 then m
    else if e > 0 then 10.0 * Scale(m, e - 1)
    else Scale(m, e + 1) / 10.0
  }

  /** The value of the digits after a decimal point: "25" is 0.25. */
  function FractionValue(d: string): real
    requires AllDigits(d)
  {
    if d == [] then 0.0 else ((DigitValue(d[0]) as real) + FractionValue(d[1..])) / 10.0
  }

  /** The value of the longest prefix of `u` that is an unsigned
      StrDecimalLiteral (`Infinity`, or digits with an optional fraction
      and exponent); NaN when there is none. */
  function UnsignedDecimal(u: string): Number {
    if |u| >= 8 && u[..8] == "Infinity" then Infinity(false)
    else
      var i := DigitRun(u);
      var hasDot := i < |u| && u[i] == '.';
      var f := if hasDot then DigitRun(u[i + 1..]) else 0;
      if i == 0 && f == 0 then NaN
      else
        var whole := DecimalValue(u[..i]) as real;
        var fraction := if hasDot then FractionValue(u[i + 1..][..f]) else 0.0;
        var mEnd := if hasDot then i + 1 + f else i;
        Finite(Scale(whole + fraction, ExponentOf(u[mEnd..])))
  }

  function Negate(x: Number): Number {
    match x
    case NaN => NaN
    case Finite(v) => Finite(-v)
    case Infinity(neg) => Infinity(!neg)
  }

  /** `parseFloat(s)`: leading whitespace is skipped, one sign is read, and
      the longest decimal literal that follows is the value. */
  function ParseFloat(s: string): Number {
    var t := TrimStart(s);
    var v := UnsignedDecimal(Unsigned(t));
    if NegativeSign(t) then Negate(v) else v
  }

  /** `x * q` for a parsed price and a parsed integer quantity. */
  function Mul(x: Number, q: int): Number {
    match x
    case NaN => NaN
    case Finite(v) => Finite(v * (q as real))
    case Infinity(neg) => if q == 0 then NaN else Infinity(if q > 0 then neg else !neg)
  }

  /** A finite number times a whole number is their product; an infinity
      times one is NaN for 0 and otherwise an infinity whose sign flips for
      a negative factor. */
  lemma MulCases(x: Number, q: int)
    ensures x.Finite? ==> Mul(x, q) == Finite(x.value * (q as real))
    ensures x.Infinity? ==> Mul(x, q) == if q == 0 then NaN else Infinity(if q > 0 then x.negative else !x.negative)
  {
    if x.Finite? {
      assert x == Finite(x.value);
    } else if x.Infinity? {
      assert x == Infinity(x.negative);
    }
  }

  /** `String(n)` for a natural number. */
  function NatToString(n: nat): (s: string)
    ensures |s| > 0 && AllDigits(s)
    ensures |s| > 1 ==> s[0] != '0'
  {
    if n < 10 then [DigitChar(n)]
    else
      var p := NatToString(n / 10);
      assert AllDigits(p + [DigitChar(n % 10)]) by {
        forall i | 0 <= i < |p| + 1 ensures IsDigit((p + [DigitChar(n % 10)])[i]) {
          if i < |p| { assert (p + [DigitChar(n % 10)])[i] == p[i]; }
        }
      }
      p + [DigitChar(n % 10)]
  }

  /** `String(n)` for an integer (no exponent notation: |n| < 10^21). */
  function IntToString(n: int): (s: string)
    ensures |s| > 0
  {
    if n < 0 then "-" + NatToString(-n) else NatToString(n)
  }

  lemma {:induction false} DecimalValueOfNatToString(n: nat)
    ensures DecimalValue(NatToString(n)) == n
  {
    if n >= 10 {
      DecimalValueOfNatToString(n / 10);
      var s := NatToString(n);
      assert s[..|s| - 1] == NatToString(n / 10);
    }
  }

  lemma NoWhitespaceStart(s: string)
    requires s != [] && (IsDigit(s[0]) || s[0] == '-')
    ensures TrimStart(s) == s
  {
  }

  lemma {:induction false} DigitRunOfDigitsThen(d: string, rest: string)
    requires AllDigits(d)
    requires rest == [] || !IsDigit(rest[0])
    ensures DigitRun(d + rest) == |d|
  {
    if d != [] {
      assert (d + rest)[1..] == d[1..] + rest;
      DigitRunOfDigitsThen(d[1..], rest);
    }
  }

  /** Decimal digits of a printed number, followed by something that is
      neither a digit nor an `x`, read back as that number. */
  lemma ParseIntDigitsOfNatToString(n: nat, rest: string)
    requires rest == [] || (!IsDigit(rest[0]) && rest[0] != 'x' && rest[0] != 'X')
    ensures ParseIntDigits(NatToString(n) + rest) == Some(n)
  {
    var d := NatToString(n);
    var u := d + rest;
    DigitRunOfDigitsThen(d, rest);
    assert u[..|d|] == d;
    DecimalValueOfNatToString(n);
    if |u| >= 2 && u[0] == '0' {
      assert |d| == 1;
      assert u[1] == rest[0];
    }
  }

  /** `parseInt` stops at the first character that is not a digit, so it
      reads back a printed natural number followed by such a character:
      `parseInt("2.7") == 2`. */
  lemma ParseIntStopsAtNonDigit(n: nat, rest: string)
    requires rest == [] || (!IsDigit(rest[0]) && rest[0] != 'x' && rest[0] != 'X')
    ensures ParseInt(NatToString(n) + rest) == Some(n)
  {
    var d := NatToString(n);
    var s := d + rest;
    assert s[0] == d[0] && IsDigit(d[0]);
    ParseIntOfDigitStart(s);
    ParseIntDigitsOfNatToString(n, rest);
  }

  /** A string that starts with a digit is read by `parseInt` without
      skipping or a sign. */
  lemma ParseIntOfDigitStart(s: string)
    requires s != [] && IsDigit(s[0])
    ensures ParseIntDigits(s).None? ==> ParseInt(s).None?
    ensures ParseIntDigits(s).Some? ==> ParseInt(s) == Some(ParseIntDigits(s).value)
  {
    NoWhitespaceStart(s);
    assert Unsigned(s) == s;
    assert !NegativeSign(s);
  }

  /** Printing an integer and parsing it back gives the integer. */
  lemma ParseIntOfIntToString(n: int)
    ensures ParseInt(IntToString(n)) == Some(n)
  {
    if n >= 0 {
      assert NatToString(n) + [] == NatToString(n);
      ParseIntStopsAtNonDigit(n, []);
    } else {
      var d := NatToString(-n);
      var s := "-" + d;
      NoWhitespaceStart(s);
      assert Unsigned(s) == d && NegativeSign(s);
      assert d + [] == d;
      ParseIntDigitsOfNatToString(-n, []);
    }
  }

  lemma UnsignedDecimalOfNatToString(m: nat)
    ensures UnsignedDecimal(NatToString(m)) == Finite(m as real)
  {
    var d := NatToString(m);
    DigitRunOfDigitsThen(d, []);
    assert d + [] == d;
    assert DigitRun(d) == |d|;
    assert d[..|d|] == d && d[|d|..] == [];
    DecimalValueOfNatToString(m);
    assert ExponentOf([]) == 0;
    assert Scale(m as real + 0.0, 0) == m as real;
  }

  /** A printed integer is read back exactly by `parseFloat` as well. */
  lemma ParseFloatOfIntToString(n: int)
    ensures ParseFloat(IntToString(n)) == Finite(n as real)
  {
    var m: nat := if n < 0 then -n else n;
    var s := IntToString(n);
    NoWhitespaceStart(s);
    assert Unsigned(s) == NatToString(m);
    assert NegativeSign(s) <==> n < 0;
    UnsignedDecimalOfNatToString(m);
  }
}
