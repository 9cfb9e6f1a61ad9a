/**
 * The few `java.lang.String` operations the library relies on: `indexOf`,
 * `lastIndexOf`, `substring` and `equalsIgnoreCase`.
 */
module Strings {
  import opened Wrappers

  /** `pat` occurs in `s` starting at index `i`. */
  predicate OccursAt(s: string, pat: string, i: int)
  {
    0 <= i && i + |pat| <= |s| && s[i..i + |pat|] == pat
  }

  /** `s.indexOf(pat)`: the first index where `pat` occurs, or -1. */
  function IndexOf(s: string, pat: string): (r: int)
    ensures -1 <= r <= |s|
    ensures r >= 0 ==> OccursAt(s, pat, r)
    ensures r >= 0 ==> forall j :: 0 <= j < r ==> !OccursAt(s, pat, j)
    ensures r == -1 ==> forall j :: !OccursAt(s, pat, j)
  {
    IndexFrom(s, pat, 0)
  }

  /** The first occurrence of `pat` at or after `k`, or -1. */
  function IndexFrom(s: string, pat: string, k: nat): (r: int)
    requires k <= |s| + 1
    ensures r == -1 || k <= r <= |s|
    ensures r >= 0 ==> OccursAt(s, pat, r)
    ensures r >= 0 ==> forall j :: k <= j < r ==> !OccursAt(s, pat, j)
    ensures r == -1 ==> forall j :: k <= j ==> !OccursAt(s, pat, j)
    decreases |s| + 1 - k
  {
    if k + |pat| > |s| then -1
    else if s[k..k + |pat|] == pat then k
    else IndexFrom(s, pat, k + 1)
  }

  /** `s.lastIndexOf(c)`: the last index holding `c`, or -1. */
  function LastIndexOf(s: string, c: char): (r: int)
    ensures -1 <= r < |s|
    ensures r >= 0 ==> s[r] == c && forall j :: r < j < |s| ==> s[j] != c
    ensures r == -1 ==> forall j :: 0 <= j < |s| ==> s[j] != c
  {
    if s == [] then -1
    else if s[|s| - 1] == c then |s| - 1
    else LastIndexOf(s[..|s| - 1], c)
  }

  /** Why `s.substring(b, e)` throws `StringIndexOutOfBoundsException`. */
  datatype StringFault = StringIndexOutOfBounds

  /** `s.substring(b, e)`, which throws unless `0 <= b <= e <= s.length()`. */
  function Substring(s: string, b: int, e: int): (r: Result<string, StringFault>)
    ensures r.Success? <==> 0 <= b <= e <= |s|
    ensures r.Success? ==> |r.value| == e - b && forall i :: 0 <= i < e - b ==> r.value[i] == s[b + i]
  {
    if 0 <= b <= e <= |s| then Success(s[b..e]) else Failure(StringIndexOutOfBounds)
  }

  /** ASCII lower-casing of one character; other characters are left alone. */
  function LowerChar(c: char): char
  {
    if 'A' <= c <= 'Z' then (c as int - 'A' as int + 'a' as int) as char else c
  }

  function Lower(s: string): (r: string)
    ensures |r| == |s|
  {
    seq(|s|, i requires 0 <= i < |s| => LowerChar(s[i]))
  }

  /** `a.equalsIgnoreCase(b)`, character by character, for ASCII letters. */
  predicate EqualsIgnoreCase(a: string, b: string)
  {
    |a| == |b| && forall i :: 0 <= i < |a| ==> LowerChar(a[i]) == LowerChar(b[i])
  }

  /** Ignoring case is comparing the lower-cased strings. */
  lemma EqualsIgnoreCaseIsLowerEqual(a: string, b: string)
    ensures EqualsIgnoreCase(a, b) <==> Lower(a) == Lower(b)
  {
    if Lower(a) == Lower(b) {
      forall i | 0 <= i < |a| ensures LowerChar(a[i]) == LowerChar(b[i]) {
        assert Lower(a)[i] == Lower(b)[i];
      }
    }
  }
}
