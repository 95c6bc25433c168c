/**
 * The string operations of PHP's standard library that the theme's rules are
 * built from: `strpos`, `ltrim` with one character, `str_replace` of one
 * character, `ctype_xdigit`, and decimal formatting of integers.
 */
module Strings {
  import opened Wrappers

  /** `needle` occurs in `haystack` starting at index `j`. */
  predicate OccursAt(haystack: string, needle: string, j: nat) {
    j + |needle| <= |haystack| && haystack[j..j + |needle|] == needle
  }

  /** `needle` occurs somewhere in `haystack`. */
  predicate Contains(haystack: string, needle: string) {
    exists j: nat :: j <= |haystack| && OccursAt(haystack, needle, j)
  }

  /**
   * `strpos($haystack, $needle)`: the index of the first occurrence, or None
   * where PHP returns false.
   */
  function Strpos(haystack: string, needle: string): (r: Option<nat>)
    ensures r.Some? ==> OccursAt(haystack, needle, r.value)
    ensures r.Some? ==> forall j: nat :: j < r.value ==> !OccursAt(haystack, needle, j)
    ensures r.None? ==> forall j: nat :: !OccursAt(haystack, needle, j)
    decreases |haystack|
  {
    if needle <= haystack then
      assert haystack[0..|needle|] == needle;
      Some(0)
    else if haystack == [] then
      None
    else
      var rest := Strpos(haystack[1..], needle);
      ShiftOccurrence(haystack, needle);
      match rest
      case Some(i) => Some(i + 1)
      case None => None
  }

  /** An occurrence past index 0 is an occurrence in the tail, one index earlier. */
  lemma ShiftOccurrence(haystack: string, needle: string)
    requires |haystack| > 0 && !(needle <= haystack)
    ensures !OccursAt(haystack, needle, 0)
    ensures forall j: nat :: j > 0 ==> (OccursAt(haystack, needle, j) <==> OccursAt(haystack[1..], needle, j - 1))
    ensures forall j: nat :: OccursAt(haystack, needle, j) ==> j > 0
  {
    forall j: nat | j > 0 ensures OccursAt(haystack, needle, j) <==> OccursAt(haystack[1..], needle, j - 1) {
      if j + |needle| <= |haystack| {
        var here := haystack[j..j + |needle|];
        var there := haystack[1..][j - 1..j - 1 + |needle|];
        forall k | 0 <= k < |needle| ensures here[k] == there[k] {
          assert haystack[1..][j - 1 + k] == haystack[j + k];
        }
        assert here == there;
      }
    }
  }

  /** A string placed between two others occurs right after the first. */
  lemma OccursBetween(before: string, needle: string, after: string)
    ensures OccursAt(before + needle + after, needle, |before|)
  {
    assert (before + needle + after)[|before|..|before| + |needle|] == needle;
  }

  /** An occurrence survives appending text after it. */
  lemma OccursExtend(x: string, y: string, needle: string, j: nat)
    requires OccursAt(x, needle, j)
    ensures OccursAt(x + y, needle, j)
  {
    assert (x + y)[j..j + |needle|] == x[j..j + |needle|];
  }

  /** A needle appended to a text occurs right after it. */
  lemma OccursAppended(x: string, needle: string)
    ensures OccursAt(x + needle, needle, |x|)
  {
    assert (x + needle)[|x|..|x| + |needle|] == needle;
  }

  /** `strpos` finds something exactly when the needle is a substring. */
  lemma StrposFindsIffContains(haystack: string, needle: string)
    ensures Strpos(haystack, needle).Some? <==> Contains(haystack, needle)
  {
    if Strpos(haystack, needle).Some? {
      assert OccursAt(haystack, needle, Strpos(haystack, needle).value);
    }
  }

  /** `ltrim($s, c)`: drops every leading occurrence of `c`. */
  function LTrim(s: string, c: char): (r: string)
    ensures |r| <= |s| && r == s[|s| - |r|..]
    ensures r == [] || r[0] != c
    ensures forall i :: 0 <= i < |s| - |r| ==> s[i] == c
  {
    if |s| > 0 && s[0] == c then LTrim(s[1..], c) else s
  }

  /** `str_replace($from, $to, $s)` for one-character strings. */
  function ReplaceChar(s: string, from: char, to: char): (r: string)
    ensures |r| == |s|
    ensures forall i :: 0 <= i < |s| ==> r[i] == (if s[i] == from then to else s[i])
  {
    seq(|s|, i requires 0 <= i < |s| => if s[i] == from then to else s[i])
  }

  predicate IsHexDigit(c: char) {
    '0' <= c <= '9' || 'a' <= c <= 'f' || 'A' <= c <= 'F'
  }

  /** `ctype_xdigit($s)`, which is false for the empty string. */
  predicate CtypeXdigit(s: string) {
    |s| > 0 && forall i :: 0 <= i < |s| ==> IsHexDigit(s[i])
  }

  predicate IsDecimalDigit(c: char) {
    '0' <= c <= '9'
  }

  /** Decimal digits of `n`, most significant first, without leading zeros. */
  function NatToString(n: nat): (r: string)
    ensures |r| > 0
    ensures forall i :: 0 <= i < |r| ==> IsDecimalDigit(r[i])
    ensures |r| > 1 ==> r[0] != '0'
  {
    var d := ['0' + (n % 10) as char];
    if n < 10 then d else NatToString(n / 10) + d
  }
}
