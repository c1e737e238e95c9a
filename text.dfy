/**
 * String predicates used by the database filters of the compliance rules
 * (`contains`, `icontains`, `startswith`, `regex`) and the decimal formatting
 * of the counts embedded in finding descriptions.
 */
module Text {

  /** ASCII case folding of one character. */
  function LowerChar(c: char): char
  {
    if 'A' <= c <= 'Z' then (c as int - 'A' as int + 'a' as int) as char else c
  }

  /** ASCII case folding of a string, character by character. */
  function LowerString(s: string): string
  {
    seq(|s|, i requires 0 <= i < |s| => LowerChar(s[i]))
  }

  /** `needle` occurs in `haystack` starting at position `i`. */
  predicate OccursAt(haystack: string, needle: string, i: int)
  {
    0 <= i <= |haystack| - |needle| && haystack[i..i + |needle|] == needle
  }

  /** `needle` occurs somewhere in `haystack` (a case-sensitive `contains` filter). */
  predicate Contains(haystack: string, needle: string)
  {
    exists i | 0 <= i <= |haystack| :: OccursAt(haystack, needle, i)
  }

  /** A case-insensitive `icontains` filter. */
  predicate ContainsIgnoreCase(haystack: string, needle: string)
  {
    Contains(LowerString(haystack), LowerString(needle))
  }

  /** A case-sensitive `startswith` filter. */
  predicate StartsWith(s: string, prefix: string)
  {
    |prefix| <= |s| && s[..|prefix|] == prefix
  }

  /** The empty pattern occurs in every string, so an empty filter value matches every row. */
  lemma ContainsEmpty(haystack: string)
    ensures Contains(haystack, "")
    ensures ContainsIgnoreCase(haystack, "")
  {
    assert OccursAt(haystack, "", 0);
    assert OccursAt(LowerString(haystack), LowerString(""), 0);
  }

  /** A case-sensitive match is also a case-insensitive one. */
  lemma ContainsIgnoresCase(haystack: string, needle: string)
    requires Contains(haystack, needle)
    ensures ContainsIgnoreCase(haystack, needle)
  {
    var i :| 0 <= i <= |haystack| && OccursAt(haystack, needle, i);
    assert LowerString(haystack)[i..i + |needle|] == LowerString(needle);
    assert OccursAt(LowerString(haystack), LowerString(needle), i);
  }

  /** A prefix is in particular a substring. */
  lemma StartsWithContains(s: string, prefix: string)
    requires StartsWith(s, prefix)
    ensures Contains(s, prefix)
  {
    assert OccursAt(s, prefix, 0);
  }

  predicate IsDigit(c: char)
  {
    '0' <= c <= '9'
  }

  function DigitChar(d: nat): (c: char)
    requires d < 10
    ensures IsDigit(c)
  {
    (d + '0' as int) as char
  }

  function DigitValue(c: char): (d: nat)
    requires IsDigit(c)
    ensures d < 10 && DigitChar(d) == c
  {
    c as int - '0' as int
  }

  /**
   * The decimal rendering of a count, as an f-string prints an int:
   * digits only, and a leading '0' only for zero itself.
   */
  function NatToString(n: nat): (s: string)
    ensures |s| >= 1
    ensures forall i :: 0 <= i < |s| ==> IsDigit(s[i])
    ensures s[0] == '0' <==> n == 0
    decreases n
  {
    if n < 10 then [DigitChar(n)] else NatToString(n / 10) + [DigitChar(n % 10)]
  }

  /** Reads a decimal numeral back. */
  function ParseDecimal(s: string): nat
    requires forall i :: 0 <= i < |s| ==> IsDigit(s[i])
  {
    if s == [] then 0 else ParseDecimal(s[..|s| - 1]) * 10 + DigitValue(s[|s| - 1])
  }

  /** The rendered count can be read back exactly: a description carries the true count. */
  lemma {:induction false} ParseNatToString(n: nat)
    ensures ParseDecimal(NatToString(n)) == n
  {
    var s := NatToString(n);
    if n >= 10 {
      ParseNatToString(n / 10);
      assert s[..|s| - 1] == NatToString(n / 10);
    }
  }

  /** Different counts give different descriptions. */
  lemma NatToStringInjective(m: nat, n: nat)
    requires NatToString(m) == NatToString(n)
    ensures m == n
  {
    ParseNatToString(m);
    ParseNatToString(n);
  }
}
