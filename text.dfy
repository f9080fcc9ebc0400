/**
 * The few pieces of std::string and <cstdlib> the command parser relies on,
 * with the width of size_t written out: `find` answers npos when the
 * character is absent, and `npos + 1` wraps to 0.
 */
module Text {

  /** std::string::npos, the largest 64-bit size_t. */
  const NPOS: nat := 0xFFFF_FFFF_FFFF_FFFF

  /** A std::string: its length is always below npos (max_size() < npos). */
  type StdString = s: string | |s| < NPOS

  /** Addition of two size_t values, which wraps modulo 2^64. */
  function SizeAdd(a: nat, b: nat): nat
  {
    (a + b) % (NPOS + 1)
  }

  function Min(a: nat, b: nat): nat { if a <= b then a else b }

  /** The index of the first occurrence of a character known to occur. */
  function IndexOf(s: string, c: char): (i: nat)
    requires c in s
    ensures i < |s| && s[i] == c && c !in s[..i]
  {
    if s[0] == c then 0 else 1 + IndexOf(s[1..], c)
  }

  /** s.find(c): the first index holding c, or npos when there is none. */
  function Find(s: string, c: char): (pos: nat)
    ensures c !in s ==> pos == NPOS
    ensures c in s ==> pos < |s| && s[pos] == c && c !in s[..pos]
  {
    if c in s then IndexOf(s, c) else NPOS
  }

  /** In a text whose first occurrence of c follows a prefix, find answers the prefix's length. */
  lemma FindAfterPrefix(a: string, c: char, b: string)
    requires c !in a
    ensures Find(a + [c] + b, c) == |a|
  {
    assert (a + [c] + b)[|a|] == c;
  }

  /** s.substr(0, n): at most the first n characters. */
  function Substr(s: string, n: nat): string
  {
    s[..Min(n, |s|)]
  }

  /** s.erase(0, n): drop at most the first n characters. */
  function Erase(s: string, n: nat): string
  {
    s[Min(n, |s|)..]
  }

  /** std::isdigit on a character: '0' to '9'. */
  predicate IsDigit(c: char)
  {
    '0' <= c <= '9'
  }

  predicate AllDigits(s: string)
  {
    forall i :: 0 <= i < |s| ==> IsDigit(s[i])
  }

  /**
   * InputHandler::isNumber: true when no character fails isdigit, so the
   * empty string counts as a number.
   */
  method IsNumber(s: string) returns (b: bool)
    ensures b <==> AllDigits(s)
    ensures s == [] ==> b
  {
    for i := 0 to |s|
      invariant AllDigits(s[..i])
    {
      if !IsDigit(s[i]) {
        return false;
      }
      assert s[..i + 1] == s[..i] + [s[i]];
    }
    assert s[..|s|] == s;
    return true;
  }

  function DigitValue(c: char): (d: nat)
    requires IsDigit(c)
    ensures d < 10
  {
    c as int - '0' as int
  }

  function DigitChar(d: nat): (c: char)
    requires d < 10
    ensures IsDigit(c) && DigitValue(c) == d
  {
    ('0' as int + d) as char
  }

  /**
   * atoi on a string of decimal digits: its value read most significant
   * digit first; the empty string reads as 0.
   */
  function Atoi(s: string): nat
    requires AllDigits(s)
  {
    if s == [] then 0 else 10 * Atoi(s[..|s| - 1]) + DigitValue(s[|s| - 1])
  }

  /** std::to_string of an unsigned value: its decimal digits, without sign or leading zeros. */
  function ToString(n: nat): (s: string)
    ensures AllDigits(s) && 1 <= |s| <= n + 1
    ensures |s| == 1 <==> n < 10
    ensures s[0] == '0' ==> n == 0
  {
    if n < 10 then [DigitChar(n)] else ToString(n / 10) + [DigitChar(n % 10)]
  }

  /** atoi reads back what to_string writes. */
  lemma {:induction false} AtoiToString(n: nat)
    ensures Atoi(ToString(n)) == n
  {
    var s := ToString(n);
    if n >= 10 {
      assert s[..|s| - 1] == ToString(n / 10);
      AtoiToString(n / 10);
    }
  }
}
