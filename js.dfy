/**
 * The few JavaScript built-ins the app's logic relies on, with their JavaScript
 * meaning written out: string truthiness, Number-to-string for integers,
 * String.prototype.trim and the truncating remainder operator `%`.
 */
module Js {
  import opened Wrappers

  /** A `string | null` used as a condition: null and "" are falsy, every other string is truthy. */
  predicate Truthy(s: Option<string>) {
    s.Some? && s.value != ""
  }

  /** `a || b` on two nullable strings: the first operand if it is truthy, else the second. */
  function Or(a: Option<string>, b: string): (r: string)
    ensures Truthy(a) ==> r == a.value
    ensures !Truthy(a) ==> r == b
  {
    if Truthy(a) then a.value else b
  }

  // ---------------------------------------------------------------------------
  // Integer to decimal string (template-literal interpolation of a non-negative integer)

  predicate IsDigit(c: char) {
    '0' <= c <= '9'
  }

  predicate AllDigits(s: string) {
    forall i :: 0 <= i < |s| ==> IsDigit(s[i])
  }

  function DigitChar(d: nat): (c: char)
    requires d < 10
    ensures IsDigit(c) && c as int - '0' as int == d
  {
    "0123456789"[d]
  }

  function DigitValue(c: char): nat
    requires IsDigit(c)
  {
    c as int - '0' as int
  }

  /** The decimal numeral of `n`, as `${n}` renders an integral Number: digits only, no leading zero. */
  function NatToString(n: nat): (s: string)
    ensures 1 <= |s| && AllDigits(s)
    ensures |s| > 1 ==> s[0] != '0'
    ensures n < 10 <==> |s| == 1
    decreases n
  {
    if n < 10 then [DigitChar(n)] else NatToString(n / 10) + [DigitChar(n % 10)]
  }

  /** The value of a numeral, read from the left; the reference reading of decimal digits. */
  function ParseNat(s: string): nat
    requires AllDigits(s)
    decreases |s|
  {
    if s == [] then 0 else 10 * ParseNat(s[..|s| - 1]) + DigitValue(s[|s| - 1])
  }

  /** Reading back the numeral gives the number: rendering a status code loses nothing. */
  lemma {:induction false} NatToStringRoundTrip(n: nat)
    ensures ParseNat(NatToString(n)) == n
    decreases n
  {
    var s := NatToString(n);
    if n >= 10 {
      NatToStringRoundTrip(n / 10);
      assert s[..|s| - 1] == NatToString(n / 10);
    }
  }

  /** Hence two different numbers never render the same. */
  lemma NatToStringInjective(m: nat, n: nat)
    requires NatToString(m) == NatToString(n)
    ensures m == n
  {
    NatToStringRoundTrip(m);
    NatToStringRoundTrip(n);
  }

  // ---------------------------------------------------------------------------
  // String.prototype.trim

  /** WhiteSpace and LineTerminator code points of ECMAScript (sections 12.2 and 12.3 of ECMA-262). */
  const WhitespaceChars: set<char> := {
    '\t', '\n', '\U{000B}', '\U{000C}', '\r', ' ', '\U{00A0}', '\U{1680}',
    '\U{2000}', '\U{2001}', '\U{2002}', '\U{2003}', '\U{2004}', '\U{2005}',
    '\U{2006}', '\U{2007}', '\U{2008}', '\U{2009}', '\U{200A}',
    '\U{2028}', '\U{2029}', '\U{202F}', '\U{205F}', '\U{3000}', '\U{FEFF}'}

  predicate IsWhitespace(c: char) {
    c in WhitespaceChars
  }

  /** Every character is white space (the empty string included). */
  predicate IsBlank(s: string) {
    forall i :: 0 <= i < |s| ==> IsWhitespace(s[i])
  }

  /** The characters at the positions `lo` up to `hi` are all white space. */
  predicate BlankBetween(s: string, lo: int, hi: int)
    requires 0 <= lo <= hi <= |s|
  {
    forall j :: lo <= j < hi ==> IsWhitespace(s[j])
  }

  /** Scanning forward from `k`: the first position that is not white space, or `|s|`. */
  function SkipBlanksForward(s: string, k: int): (i: int)
    requires 0 <= k <= |s|
    ensures k <= i <= |s| && BlankBetween(s, k, i)
    ensures i == |s| || !IsWhitespace(s[i])
    decreases |s| - k
  {
    if k < |s| && IsWhitespace(s[k]) then SkipBlanksForward(s, k + 1) else k
  }

  /** Scanning backward from `k` down to `lo`: the end of the last non-space before `k`, or `lo`. */
  function SkipBlanksBackward(s: string, lo: int, k: int): (j: int)
    requires 0 <= lo <= k <= |s|
    ensures lo <= j <= k && BlankBetween(s, j, k)
    ensures j == lo || !IsWhitespace(s[j - 1])
    decreases k - lo
  {
    if lo < k && IsWhitespace(s[k - 1]) then SkipBlanksBackward(s, lo, k - 1) else k
  }

  /**
   * `String.prototype.trim`: the result is the run of `s` between a blank prefix
   * and a blank suffix, and it neither starts nor ends with white space.
   */
  function Trim(s: string): (r: string)
    ensures var i := SkipBlanksForward(s, 0);
      && i + |r| <= |s| && r == s[i..i + |r|]
      && BlankBetween(s, 0, i) && BlankBetween(s, i + |r|, |s|)
    ensures r == [] || (!IsWhitespace(r[0]) && !IsWhitespace(r[|r| - 1]))
  {
    var i := SkipBlanksForward(s, 0);
    s[i..SkipBlanksBackward(s, i, |s|)]
  }

  /** `!s.trim()` holds exactly for the blank strings. */
  lemma TrimEmptyIffBlank(s: string)
    ensures Trim(s) == "" <==> IsBlank(s)
  {
    var i := SkipBlanksForward(s, 0);
    var r := Trim(s);
    if r != "" {
      assert r[0] == s[i];
    }
  }

  // ---------------------------------------------------------------------------
  // The remainder operator `%` on integral Numbers, which truncates toward zero

  /** Integer division truncated toward zero, the quotient that goes with `Rem`. */
  function Quot(a: int, n: int): int
    requires n > 0
  {
    if a >= 0 then a / n else -((-a) / n)
  }

  /** `a % n` in JavaScript for a positive divisor: the remainder takes the sign of the dividend. */
  function Rem(a: int, n: int): (r: int)
    requires n > 0
    ensures a >= 0 ==> 0 <= r < n
    ensures a < 0 ==> -n < r <= 0
    ensures a == n * Quot(a, n) + r
  {
    if a >= 0 then a % n
    else
      var q := (-a) / n;
      assert -a == n * q + (-a) % n;
      assert n * -q == -(n * q);
      -((-a) % n)
  }
}
