/**
 * The few JavaScript string operations the application relies on, on `seq<char>`:
 * `trim`, `toLowerCase`, `includes`, `startsWith`/`endsWith`, `substring(0, n)` and
 * the decimal rendering of a non-negative integer in a template string.
 */
module Strings {

  /** Characters `String.prototype.trim` removes: ECMAScript WhiteSpace and LineTerminator. */
  const Whitespace: set<char> := {
    '\t', '\n', '\U{000B}', '\U{000C}', '\r', ' ', '\U{00A0}', '\U{1680}',
    '\U{2000}', '\U{2001}', '\U{2002}', '\U{2003}', '\U{2004}', '\U{2005}',
    '\U{2006}', '\U{2007}', '\U{2008}', '\U{2009}', '\U{200A}',
    '\U{2028}', '\U{2029}', '\U{202F}', '\U{205F}', '\U{3000}', '\U{FEFF}'
  }

  predicate IsWhitespace(c: char) {
    c in Whitespace
  }

  /** The characters of `s` from `lo` up to (not including) `hi` are all whitespace. */
  predicate BlankBetween(s: string, lo: int, hi: int)
    requires 0 <= lo <= hi <= |s|
  {
    forall k :: lo <= k < hi ==> IsWhitespace(s[k])
  }

  /** Every character is whitespace: the strings whose `trim()` is the falsy "". */
  predicate IsBlank(s: string) {
    BlankBetween(s, 0, |s|)
  }

  /** Index of the first non-whitespace character at or after `from` (or `|s|`). */
  function SkipWhitespace(s: string, from: nat): (i: nat)
    requires from <= |s|
    ensures from <= i <= |s| && BlankBetween(s, from, i)
    ensures i < |s| ==> !IsWhitespace(s[i])
    decreases |s| - from
  {
    if from == |s| || !IsWhitespace(s[from]) then from else SkipWhitespace(s, from + 1)
  }

  /** Index just past the last non-whitespace character of `s[lo..hi]` (or `lo`). */
  function BackOverWhitespace(s: string, lo: nat, hi: nat): (j: nat)
    requires lo <= hi <= |s|
    ensures lo <= j <= hi && BlankBetween(s, j, hi)
    ensures j > lo ==> !IsWhitespace(s[j - 1])
    decreases hi
  {
    if hi == lo || !IsWhitespace(s[hi - 1]) then hi else BackOverWhitespace(s, lo, hi - 1)
  }

  /** `s.trim()`: the middle of `s` left once whitespace is stripped from both ends. */
  function Trim(s: string): (r: string)
    ensures exists i :: 0 <= i <= |s| - |r| && r == s[i..i + |r|] && BlankBetween(s, 0, i) && BlankBetween(s, i + |r|, |s|)
    ensures r == [] || (!IsWhitespace(r[0]) && !IsWhitespace(r[|r| - 1]))
    ensures r == [] <==> IsBlank(s)
  {
    var i := SkipWhitespace(s, 0);
    var j := BackOverWhitespace(s, i, |s|);
    s[i..j]
  }

  /**
   * `toLowerCase` on one character, for the capitals of the ASCII and Latin-1
   * blocks, the Georgian Mtavruli capitals (which lower-case to the Mkhedruli
   * letters the keywords are written in) and the Kelvin sign (which lower-cases
   * to 'k'). Every other character is left as it is.
   */
  function LowerChar(c: char): char {
    if 'A' <= c <= 'Z' || ('\U{00C0}' <= c <= '\U{00DE}' && c != '\U{00D7}') then (c as int + 0x20) as char
    else if '\U{1C90}' <= c <= '\U{1CBA}' || '\U{1CBD}' <= c <= '\U{1CBF}' then (c as int - 0xBC0) as char
    else if c == '\U{212A}' then 'k'
    else c
  }

  function ToLower(s: string): (r: string)
    ensures |r| == |s|
    ensures forall i :: 0 <= i < |s| ==> r[i] == LowerChar(s[i])
  {
    seq(|s|, i requires 0 <= i < |s| => LowerChar(s[i]))
  }

  /** Lower-casing twice is lower-casing once. */
  lemma ToLowerIdempotent(s: string)
    ensures ToLower(ToLower(s)) == ToLower(s)
  {
  }

  /** `k` sits in `s` starting at index `i`. */
  ghost predicate OccursAt(s: string, k: string, i: int) {
    0 <= i && i + |k| <= |s| && s[i..i + |k|] == k
  }

  ghost predicate Occurs(s: string, k: string) {
    exists i :: OccursAt(s, k, i)
  }

  /** `s.includes(k)`: a scan of every start position, from the left. */
  function Contains(s: string, k: string): (b: bool)
    ensures b <==> Occurs(s, k)
    decreases |s|
  {
    if |s| < |k| then
      assert forall i :: !OccursAt(s, k, i);
      false
    else if s[..|k|] == k then
      assert OccursAt(s, k, 0);
      true
    else
      var b := Contains(s[1..], k);
      assert b ==> Occurs(s, k) by {
        if b {
          var i :| OccursAt(s[1..], k, i);
          assert s[i + 1..i + 1 + |k|] == s[1..][i..i + |k|];
          assert OccursAt(s, k, i + 1);
        }
      }
      assert Occurs(s, k) ==> b by {
        if Occurs(s, k) {
          var i :| OccursAt(s, k, i);
          assert i != 0;
          assert s[1..][i - 1..i - 1 + |k|] == s[i..i + |k|];
          assert OccursAt(s[1..], k, i - 1);
        }
      }
      b
  }

  /** A text that holds `long` also holds every piece of `long`. */
  lemma {:induction false} OccursInfix(s: string, long: string, i: nat, j: nat)
    requires i <= j <= |long|
    requires Occurs(s, long)
    ensures Occurs(s, long[i..j])
  {
    var p :| OccursAt(s, long, p);
    forall m | 0 <= m < j - i ensures s[p + i..p + j][m] == long[i..j][m] {
      assert s[p + i..p + j][m] == s[p..p + |long|][i + m];
    }
    assert OccursAt(s, long[i..j], p + i);
  }

  /** A text without the first character of `k` cannot hold `k`. */
  lemma {:induction false} AbsentFirstChar(s: string, k: string)
    requires |k| > 0
    requires forall i :: 0 <= i < |s| ==> s[i] != k[0]
    ensures !Occurs(s, k)
  {
    forall p | 0 <= p && p + |k| <= |s| ensures !OccursAt(s, k, p) {
      assert s[p..p + |k|][0] == s[p];
    }
  }

  predicate StartsWith(s: string, k: string) {
    |k| <= |s| && s[..|k|] == k
  }

  predicate EndsWith(s: string, k: string) {
    |k| <= |s| && s[|s| - |k|..] == k
  }

  /** `s.substring(0, n)`: the first `min(n, |s|)` characters. */
  function Prefix(s: string, n: nat): (r: string)
    ensures |r| == if n < |s| then n else |s|
    ensures StartsWith(s, r)
  {
    if n < |s| then s[..n] else s
  }

  function DigitChar(d: nat): (c: char)
    requires d < 10
    ensures '0' <= c <= '9' && c as int - '0' as int == d
  {
    (d + '0' as int) as char
  }

  predicate IsDigits(s: string) {
    forall i :: 0 <= i < |s| ==> '0' <= s[i] <= '9'
  }

  /** `${n}` for a non-negative integer: its shortest decimal spelling. */
  function Decimal(n: nat): (r: string)
    ensures |r| > 0 && IsDigits(r)
    ensures r[0] == '0' ==> n == 0
  {
    if n < 10 then [DigitChar(n)] else Decimal(n / 10) + [DigitChar(n % 10)]
  }

  /** Reads a string of decimal digits back as a number: the inverse of `Decimal`. */
  function DecimalValue(s: string): nat
    requires IsDigits(s)
  {
    if s == [] then 0 else DecimalValue(s[..|s| - 1]) * 10 + (s[|s| - 1] as int - '0' as int)
  }

  lemma {:induction false} DecimalRoundTrip(n: nat)
    ensures DecimalValue(Decimal(n)) == n
  {
    if n >= 10 {
      var r := Decimal(n);
      assert r[..|r| - 1] == Decimal(n / 10);
      DecimalRoundTrip(n / 10);
    }
  }

  /** Different numbers are spelled differently. */
  lemma DecimalInjective(m: nat, n: nat)
    requires Decimal(m) == Decimal(n)
    ensures m == n
  {
    DecimalRoundTrip(m);
    DecimalRoundTrip(n);
  }
}
