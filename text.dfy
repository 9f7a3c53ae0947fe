/**
 * The string operations the forms and pages use: `trim()` emptiness, `toLowerCase()`,
 * `includes`, `startsWith`, `String(n)` on integers, `padStart(2, '0')`, and the order of
 * strings by code points.
 */
module Text {
  import opened Seqs

  /** WhiteSpace and LineTerminator of ECMAScript, which `trim()` and `parseFloat` skip. */
  predicate IsJsWhitespace(c: char) {
    || c == '\t' || c == '\n' || c == '\U{000B}' || c == '\U{000C}' || c == '\r' || c == ' '
    || c == '\U{00A0}' || c == '\U{1680}' || ('\U{2000}' <= c <= '\U{200A}')
    || c == '\U{2028}' || c == '\U{2029}' || c == '\U{202F}' || c == '\U{205F}'
    || c == '\U{3000}' || c == '\U{FEFF}'
  }

  /** `!s.trim()`: the string is empty or all whitespace. */
  predicate IsBlank(s: string) {
    forall i :: 0 <= i < |s| ==> IsJsWhitespace(s[i])
  }

  function LowerChar(c: char): char {
    if 'A' <= c <= 'Z' then (c as int + 32) as char else c
  }

  /** `toLowerCase()` on ASCII letters; other characters are kept. */
  function Lower(s: string): (r: string)
    ensures |r| == |s|
    ensures forall i :: 0 <= i < |s| ==> r[i] == LowerChar(s[i])
  {
    seq(|s|, i requires 0 <= i < |s| => LowerChar(s[i]))
  }

  predicate StartsWith(s: string, prefix: string) {
    |prefix| <= |s| && s[..|prefix|] == prefix
  }

  /** `s.includes(t)`: `t` occurs in `s` at some position. */
  predicate Contains(s: string, t: string)
    decreases |s|
  {
    StartsWith(s, t) || (|s| > 0 && Contains(s[1..], t))
  }

  /** `text.toLowerCase().includes(term.toLowerCase())`. */
  predicate MatchesIgnoringCase(text: string, term: string) {
    Contains(Lower(text), Lower(term))
  }

  function DigitChar(d: int): char
    requires 0 <= d < 10
  {
    ('0' as int + d) as char
  }

  predicate IsDigit(c: char) {
    '0' <= c <= '9'
  }

  function DigitValue(c: char): int
    requires IsDigit(c)
  {
    c as int - '0' as int
  }

  /** The decimal digits of `n`, most significant first, without leading zeros. */
  function NatToString(n: nat): (r: string)
    ensures |r| > 0
    ensures forall i :: 0 <= i < |r| ==> IsDigit(r[i])
    ensures n > 0 ==> r[0] != '0'
  {
    if n < 10 then [DigitChar(n)] else NatToString(n / 10) + [DigitChar(n % 10)]
  }

  /** `String(n)` for an integer `n`. */
  function IntToString(n: int): (r: string)
    ensures |r| > 0
    ensures n >= 0 <==> r[0] != '-'
  {
    if n < 0 then "-" + NatToString(-n) else NatToString(n)
  }

  /** `s.padStart(2, '0')`. */
  function PadStart2(s: string): (r: string)
    ensures |r| == if |s| < 2 then 2 else |s|
    ensures r[|r| - |s|..] == s
  {
    if |s| == 0 then "00" else if |s| == 1 then "0" + s else s
  }

  /** `a` sorts before `b` by code points (shorter prefix first). */
  predicate StringLess(a: string, b: string)
    decreases |a|
  {
    if |a| == 0 then |b| > 0
    else if |b| == 0 then false
    else if a[0] != b[0] then a[0] < b[0]
    else StringLess(a[1..], b[1..])
  }

  /** An empty search term is found in every text. */
  lemma EmptyTermMatchesAll(text: string)
    ensures MatchesIgnoringCase(text, "")
  {
  }

  /** A found term is never longer than the text it is found in. */
  lemma {:induction false} ContainsBound(s: string, t: string)
    requires Contains(s, t)
    ensures |t| <= |s|
    decreases |s|
  {
    if !StartsWith(s, t) {
      ContainsBound(s[1..], t);
    }
  }

  /** Every text contains itself, so a search for a whole description finds it. */
  lemma ContainsItself(s: string)
    ensures Contains(s, s)
  {
    assert s[..|s|] == s;
  }

  /** Matching ignores the case of the term: lower-casing it first changes nothing. */
  lemma MatchIsCaseInsensitive(text: string, term: string)
    ensures MatchesIgnoringCase(text, Lower(term)) == MatchesIgnoringCase(text, term)
    ensures MatchesIgnoringCase(Lower(text), term) == MatchesIgnoringCase(text, term)
  {
    assert Lower(Lower(term)) == Lower(term);
    assert Lower(Lower(text)) == Lower(text);
  }

  lemma {:induction false} StringLessIrreflexive(a: string)
    ensures !StringLess(a, a)
    decreases |a|
  {
    if |a| > 0 {
      StringLessIrreflexive(a[1..]);
    }
  }

  lemma {:induction false} StringLessTransitive(a: string, b: string, c: string)
    requires StringLess(a, b) && StringLess(b, c)
    ensures StringLess(a, c)
    decreases |a|
  {
    if |a| > 0 && a[0] == b[0] && b[0] == c[0] {
      StringLessTransitive(a[1..], b[1..], c[1..]);
    }
  }

  lemma {:induction false} StringLessTotal(a: string, b: string)
    requires a != b
    ensures StringLess(a, b) || StringLess(b, a)
    decreases |a|
  {
    if |a| > 0 && |b| > 0 && a[0] == b[0] {
      assert a == [a[0]] + a[1..] && b == [b[0]] + b[1..];
      StringLessTotal(a[1..], b[1..]);
    }
  }

  /** Code-point order is a strict weak order, so stable sorting by it is well defined. */
  lemma StringLessIsStrictWeakOrder()
    ensures StrictWeakOrder((a: string, b: string) => StringLess(a, b))
  {
    var less := (a: string, b: string) => StringLess(a, b);
    forall a: string, b: string | less(a, b) ensures !less(b, a) {
      if less(b, a) {
        StringLessTransitive(a, b, a);
        StringLessIrreflexive(a);
      }
    }
    forall a: string, b: string, c: string | !less(a, b) && !less(b, c) ensures !less(a, c) {
      if a != b {
        StringLessTotal(a, b);
      }
      if b != c {
        StringLessTotal(b, c);
      }
      if a != b && b != c {
        StringLessTransitive(c, b, a);
        StringLessIrreflexive(a);
      }
      if less(a, c) {
        StringLessIrreflexive(a);
      }
    }
  }

  // ---------------------------------------------------------------------------
  // Fixed-width decimal numerals
  // ---------------------------------------------------------------------------

  function TenTo(w: nat): nat {
    if w == 0 then 1 else 10 * TenTo(w - 1)
  }

  /** The last `w` decimal digits of `n`, padded with zeros. */
  function Digits(n: nat, w: nat): (r: string)
    ensures |r| == w
    decreases w
  {
    if w == 0 then [] else Digits(n / 10, w - 1) + [DigitChar(n % 10)]
  }

  /** Comparing two strings that start with prefixes of equal length compares the prefixes first. */
  lemma {:induction false} StringLessConcat(a: string, s: string, b: string, t: string)
    requires |a| == |b|
    ensures StringLess(a + s, b + t) <==> StringLess(a, b) || (a == b && StringLess(s, t))
    decreases |a|
  {
    if |a| == 0 {
      assert a + s == s && b + t == t;
    } else {
      assert (a + s)[1..] == a[1..] + s && (b + t)[1..] == b[1..] + t;
      assert a == [a[0]] + a[1..] && b == [b[0]] + b[1..];
      StringLessConcat(a[1..], s, b[1..], t);
    }
  }

  /** Numerals of the same width sort like the numbers they write. */
  lemma {:induction false} DigitsOrder(m: nat, n: nat, w: nat)
    requires m < TenTo(w) && n < TenTo(w)
    ensures StringLess(Digits(m, w), Digits(n, w)) <==> m < n
    ensures Digits(m, w) == Digits(n, w) <==> m == n
    decreases w
  {
    if w == 0 {
    } else {
      var a, b := Digits(m / 10, w - 1), Digits(n / 10, w - 1);
      DigitsOrder(m / 10, n / 10, w - 1);
      StringLessConcat(a, [DigitChar(m % 10)], b, [DigitChar(n % 10)]);
      if a == b {
        assert m / 10 == n / 10;
      } else {
        assert m / 10 != n / 10;
        assert Digits(m, w)[..w - 1] == a && Digits(n, w)[..w - 1] == b;
      }
      if Digits(m, w) == Digits(n, w) {
        assert Digits(m, w)[..w - 1] == a && Digits(n, w)[..w - 1] == b;
        assert Digits(m, w)[w - 1] == DigitChar(m % 10) && Digits(n, w)[w - 1] == DigitChar(n % 10);
      }
    }
  }

  /** A number with exactly `w` digits is written as its `w`-digit numeral. */
  lemma {:induction false} NatToStringIsDigits(n: nat, w: nat)
    requires w >= 1 && n < TenTo(w) && (w == 1 || TenTo(w - 1) <= n)
    ensures NatToString(n) == Digits(n, w)
    decreases w
  {
    if w > 1 {
      assert TenTo(w) == 10 * TenTo(w - 1) && TenTo(w - 1) == 10 * TenTo(w - 2);
      assert n >= 10;
      assert TenTo(w - 2) <= n / 10 < TenTo(w - 1);
      NatToStringIsDigits(n / 10, w - 1);
    }
  }

  /** `String(y)` of a four-digit year is its four-digit numeral. */
  lemma FourDigitYear(y: nat)
    requires 1000 <= y <= 9999
    ensures IntToString(y) == Digits(y, 4)
    ensures y < TenTo(4)
  {
    NatToStringIsDigits(y, 4);
  }

  /** `String(m).padStart(2, '0')` of a number below 100 is its two-digit numeral. */
  lemma TwoDigits(m: nat)
    requires m < 100
    ensures PadStart2(IntToString(m)) == Digits(m, 2)
    ensures m < TenTo(2)
  {
    if m < 10 {
      NatToStringIsDigits(m, 1);
      assert Digits(m, 2) == ['0'] + Digits(m, 1);
    } else {
      NatToStringIsDigits(m, 2);
    }
  }
}
