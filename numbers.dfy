/**
 * Numbers typed into the forms: `parseInt(s, 10)`, `parseFloat(s)` (NaN is `None`),
 * `x.toFixed(2)`, and the text of a numeric input field.
 */
module Numbers {
  import opened Wrappers
  import opened Text

  /** Drops the leading whitespace that `parseInt` and `parseFloat` skip. */
  function SkipWhitespace(s: string): (r: string)
    ensures |r| <= |s| && r == s[|s| - |r|..]
    ensures |r| > 0 ==> !IsJsWhitespace(r[0])
  {
    if |s| > 0 && IsJsWhitespace(s[0]) then SkipWhitespace(s[1..]) else s
  }

  /** The length of the run of decimal digits at the front of `s`. */
  function DigitRun(s: string): (n: nat)
    ensures n <= |s|
    ensures forall i :: 0 <= i < n ==> IsDigit(s[i])
    ensures n < |s| ==> !IsDigit(s[n])
  {
    if |s| > 0 && IsDigit(s[0]) then 1 + DigitRun(s[1..]) else 0
  }

  /** The value of a string of decimal digits. */
  function DigitsValue(d: string): nat
    requires forall i :: 0 <= i < |d| ==> IsDigit(d[i])
  {
    if |d| == 0 then 0 else 10 * DigitsValue(d[..|d| - 1]) + DigitValue(d[|d| - 1])
  }

  /** A leading '-' or '+' and what follows it: whether the number is negative, and the rest. */
  function Sign(t: string): (bool, string) {
    if |t| > 0 && t[0] == '-' then (true, t[1..])
    else if |t| > 0 && t[0] == '+' then (false, t[1..])
    else (false, t)
  }

  /**
   * `parseInt(s, 10)`: after leading whitespace and an optional sign, the longest run of
   * digits; anything after it is ignored. No digit at all is NaN.
   */
  function ParseInt(s: string): Option<int> {
    var (negative, rest) := Sign(SkipWhitespace(s));
    var n := DigitRun(rest);
    if n == 0 then None
    else
      var value: int := DigitsValue(rest[..n]);
      Some(if negative then -value else value)
  }

  /** 10 raised to an integer power. */
  function Pow10(e: int): (r: real)
    ensures r > 0.0
    decreases if e < 0 then -e else e
  {
    if e == 0 then 1.0 else if e > 0 then 10.0 * Pow10(e - 1) else Pow10(e + 1) / 10.0
  }

  /** The exponent part `e` or `E`, an optional sign and digits at the front of `s`, if any. */
  function Exponent(s: string): int {
    if |s| > 0 && (s[0] == 'e' || s[0] == 'E') then
      var (negative, rest) := Sign(s[1..]);
      var n := DigitRun(rest);
      var value: int := if n == 0 then 0 else DigitsValue(rest[..n]);
      if negative then -value else value
    else 0
  }

  /**
   * The longest prefix of `rest` that reads as digits, an optional point with digits, and
   * an optional exponent; None when there is no digit before or after the point.
   */
  function UnsignedDecimal(rest: string): Option<real> {
    var intLen := DigitRun(rest);
    var whole := DigitsValue(rest[..intLen]) as real;
    var after := rest[intLen..];
    if |after| > 0 && after[0] == '.' then
      var fracLen := DigitRun(after[1..]);
      var fraction := DigitsValue(after[1..][..fracLen]) as real / Pow10(fracLen);
      if intLen == 0 && fracLen == 0 then None
      else Some((whole + fraction) * Pow10(Exponent(after[1..][fracLen..])))
    else if intLen == 0 then None
    else Some(whole * Pow10(Exponent(after)))
  }

  /** `parseFloat(s)`: leading whitespace, an optional sign, then an unsigned decimal; else NaN. */
  function ParseFloat(s: string): Option<real> {
    var (negative, rest) := Sign(SkipWhitespace(s));
    match UnsignedDecimal(rest)
    case None => None
    case Some(v) => Some(if negative then -v else v)
  }

  /** Rounding half up to cents, for a non-negative amount. */
  function RoundCents(y: real): real {
    (y * 100.0 + 0.5).Floor as real / 100.0
  }

  /** The number that `x.toFixed(2)` writes: to two decimals, halves away from zero. */
  function Round2(x: real): real {
    if x < 0.0 then -RoundCents(-x) else RoundCents(x)
  }

  /**
   * The text of a numeric input: what the user typed, the rendering `String(x)` of a number,
   * which parses back to it, or the rendering `x.toFixed(2)`, which parses to `Round2(x)`.
   */
  datatype NumText = Typed(text: string) | Shown(value: real) | Fixed2(value: real)

  const EmptyText: NumText := Typed("")

  /** `parseFloat` of the field's text. */
  function FloatOf(t: NumText): Option<real> {
    match t
    case Typed(s) => ParseFloat(s)
    case Shown(x) => Some(x)
    case Fixed2(x) => Some(Round2(x))
  }

  lemma {:induction false} DigitsValueOfNat(n: nat)
    ensures DigitsValue(NatToString(n)) == n
    decreases n
  {
    if n >= 10 {
      DigitsValueOfNat(n / 10);
      var r := NatToString(n);
      assert r[..|r| - 1] == NatToString(n / 10);
    }
  }

  lemma {:induction false} DigitRunAll(d: string)
    requires forall i :: 0 <= i < |d| ==> IsDigit(d[i])
    ensures DigitRun(d) == |d|
    decreases |d|
  {
    if |d| > 0 {
      DigitRunAll(d[1..]);
    }
  }

  /** Reading `String(n)` skips no whitespace and splits off the sign of `n`. */
  lemma SignOfString(n: int)
    ensures SkipWhitespace(IntToString(n)) == IntToString(n)
    ensures Sign(IntToString(n)) == (n < 0, NatToString(if n < 0 then -n else n))
  {
    var s := IntToString(n);
    var d := NatToString(if n < 0 then -n else n);
    assert IsDigit(d[0]);
    assert s[0] == '-' || s[0] == d[0];
    assert !IsJsWhitespace(s[0]);
    if n < 0 {
      assert s == "-" + d && s[1..] == d;
    } else {
      assert s == d && s[0] != '+';
    }
  }

  /** `parseInt(String(n), 10) === n` for every integer, so a loaded quantity reads back unchanged. */
  lemma ParseIntOfString(n: int)
    ensures ParseInt(IntToString(n)) == Some(n)
  {
    var m: nat := if n < 0 then -n else n;
    var d := NatToString(m);
    DigitsValueOfNat(m);
    DigitRunAll(d);
    SignOfString(n);
    assert d[..|d|] == d;
  }

  /** `String(n)` is injective on integers. */
  lemma IntToStringInjective(a: int, b: int)
    requires IntToString(a) == IntToString(b)
    ensures a == b
  {
    ParseIntOfString(a);
    ParseIntOfString(b);
  }

  /** `parseFloat` of a whole number's text is that number. */
  lemma ParseFloatOfString(n: int)
    ensures ParseFloat(IntToString(n)) == Some(n as real)
  {
    var m: nat := if n < 0 then -n else n;
    var d := NatToString(m);
    DigitsValueOfNat(m);
    DigitRunAll(d);
    SignOfString(n);
    assert d[..|d|] == d && d[|d|..] == "";
    assert UnsignedDecimal(d) == Some(m as real);
  }

  /** `toFixed(2)` moves a value by at most half a cent and keeps its sign. */
  lemma Round2Close(x: real)
    ensures -0.005 <= Round2(x) - x <= 0.005
    ensures x >= 0.0 ==> Round2(x) >= 0.0
    ensures x <= 0.0 ==> Round2(x) <= 0.0
  {
  }

  /** An amount already in whole cents is written unchanged by `toFixed(2)`. */
  lemma Round2OfCents(k: int)
    ensures Round2(k as real / 100.0) == k as real / 100.0
  {
    if k < 0 {
      assert (-(k as real / 100.0) * 100.0 + 0.5).Floor == -k;
    } else {
      assert ((k as real / 100.0) * 100.0 + 0.5).Floor == k;
    }
  }

  /** `toFixed(2)` is idempotent: a rounded amount rounds to itself. */
  lemma Round2Idempotent(x: real)
    ensures Round2(Round2(x)) == Round2(x)
  {
    var k := if x < 0.0 then -((-x) * 100.0 + 0.5).Floor else (x * 100.0 + 0.5).Floor;
    assert Round2(x) == k as real / 100.0;
    Round2OfCents(k);
  }
}
