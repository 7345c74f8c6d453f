/**
 * Text operations of JavaScript that the chat handler relies on:
 * `String.prototype.trim` and the decimal rendering of an integral number.
 * Characters are Unicode scalar values (Dafny `char`), not UTF-16 code units.
 */
module JsText {

  /** WhiteSpace and LineTerminator code points of ECMAScript, the set that `trim` removes. */
  predicate IsWhitespace(c: char) {
    c == '\t' || c == '\n' || c == '\U{000B}' || c == '\U{000C}' || c == '\r' || c == ' '
    || c == '\U{00A0}' || c == '\U{1680}' || ('\U{2000}' <= c <= '\U{200A}')
    || c == '\U{2028}' || c == '\U{2029}' || c == '\U{202F}' || c == '\U{205F}'
    || c == '\U{3000}' || c == '\U{FEFF}'
  }

  /** Every character of `s` is whitespace. */
  predicate AllWhitespace(s: string) {
    forall m :: 0 <= m < |s| ==> IsWhitespace(s[m])
  }

  /** Neither end of `s` is whitespace (the empty string qualifies). */
  predicate IsTrimmed(s: string) {
    s == [] || (!IsWhitespace(s[0]) && !IsWhitespace(s[|s| - 1]))
  }

  /** The first position at or after `i` that does not hold whitespace, or `|s|`. */
  function SkipForward(s: string, i: nat): (j: nat)
    requires i <= |s|
    ensures i <= j <= |s|
    ensures forall m :: i <= m < j ==> IsWhitespace(s[m])
    ensures j == |s| || !IsWhitespace(s[j])
    decreases |s| - i
  {
    if i < |s| && IsWhitespace(s[i]) then SkipForward(s, i + 1) else i
  }

  /** The end of `s[lo..j]` once its trailing whitespace is dropped. */
  function SkipBackward(s: string, lo: nat, j: nat): (e: nat)
    requires lo <= j <= |s|
    ensures lo <= e <= j
    ensures forall m :: e <= m < j ==> IsWhitespace(s[m])
    ensures e == lo || !IsWhitespace(s[e - 1])
    decreases j
  {
    if lo < j && IsWhitespace(s[j - 1]) then SkipBackward(s, lo, j - 1) else j
  }

  /**
   * `s.trim()`: the infix of `s` left after removing whitespace from both ends.
   * It is empty exactly when `s` is whitespace only.
   */
  function Trim(s: string): (r: string)
    ensures IsTrimmed(r)
    ensures r == [] <==> AllWhitespace(s)
    ensures var lo := SkipForward(s, 0);
      lo + |r| <= |s| && r == s[lo..lo + |r|]
      && (forall m :: 0 <= m < lo ==> IsWhitespace(s[m]))
      && (forall m :: lo + |r| <= m < |s| ==> IsWhitespace(s[m]))
  {
    var lo := SkipForward(s, 0);
    var hi := SkipBackward(s, lo, |s|);
    assert lo < |s| ==> hi > lo;
    s[lo..hi]
  }

  /**
   * `trim` is the unique way to see `s` as whitespace, a trimmed core, whitespace:
   * whatever padding surrounds a trimmed string, `trim` gives back exactly that string.
   */
  lemma TrimOfPadded(p: string, t: string, q: string)
    requires AllWhitespace(p) && AllWhitespace(q) && IsTrimmed(t)
    ensures Trim(p + t + q) == t
  {
    var s := p + t + q;
    if t == [] {
      assert AllWhitespace(s) by {
        forall m | 0 <= m < |s| ensures IsWhitespace(s[m]) {
          if m < |p| { assert s[m] == p[m]; } else { assert s[m] == q[m - |p|]; }
        }
      }
    } else {
      var lo, hi := |p|, |p| + |t|;
      assert s[lo] == t[0] && s[hi - 1] == t[|t| - 1];
      forall m | 0 <= m < lo ensures IsWhitespace(s[m]) {
        assert s[m] == p[m];
      }
      forall m | hi <= m < |s| ensures IsWhitespace(s[m]) {
        assert s[m] == q[m - hi];
      }
      assert SkipForward(s, 0) == lo;
      assert SkipBackward(s, lo, |s|) == hi;
      assert s[lo..hi] == t;
    }
  }

  /** Trimming twice changes nothing more. */
  lemma TrimIdempotent(s: string)
    ensures Trim(Trim(s)) == Trim(s)
  {
    var t := Trim(s);
    assert t == [] + t + [];
    TrimOfPadded([], t, []);
  }

  predicate IsDigit(c: char) {
    '0' <= c <= '9'
  }

  predicate AllDigits(s: string) {
    forall i :: 0 <= i < |s| ==> IsDigit(s[i])
  }

  function DigitChar(d: nat): (c: char)
    requires d < 10
    ensures IsDigit(c)
  {
    ('0' as int + d) as char
  }

  function DigitValue(c: char): (d: nat)
    requires IsDigit(c)
    ensures d < 10
  {
    c as int - '0' as int
  }

  /** The value denoted by a string of decimal digits, most significant first. */
  function DecimalValue(s: string): nat
    requires AllDigits(s)
  {
    if s == [] then 0 else DecimalValue(s[..|s| - 1]) * 10 + DigitValue(s[|s| - 1])
  }

  /** Decimal digits of `n` without leading zeros: only zero itself starts with '0'. */
  function NatToDecimal(n: nat): (r: string)
    ensures r != [] && AllDigits(r)
    ensures r[0] == '0' <==> n == 0
  {
    if n < 10 then [DigitChar(n)] else NatToDecimal(n / 10) + [DigitChar(n % 10)]
  }

  /** Reading back the digits of `n` gives `n`. */
  lemma {:induction false} DecimalRoundTrip(n: nat)
    ensures DecimalValue(NatToDecimal(n)) == n
  {
    if n >= 10 {
      var r := NatToDecimal(n);
      assert r[..|r| - 1] == NatToDecimal(n / 10);
      DecimalRoundTrip(n / 10);
    }
  }

  /** How JavaScript renders an integral number as text: a minus sign for negatives, then the digits. */
  function IntToDecimal(i: int): string {
    if i < 0 then "-" + NatToDecimal(-i) else NatToDecimal(i)
  }

  /** The rendering of `i` carries its sign and, after it, digits whose value is `|i|`. */
  lemma IntToDecimalRoundTrip(i: int)
    ensures var t := IntToDecimal(i);
      if i < 0 then t != [] && t[0] == '-' && AllDigits(t[1..]) && DecimalValue(t[1..]) == -i
      else AllDigits(t) && DecimalValue(t) == i
  {
    if i < 0 {
      assert IntToDecimal(i)[1..] == NatToDecimal(-i);
      DecimalRoundTrip(-i);
    } else {
      DecimalRoundTrip(i);
    }
  }
}
