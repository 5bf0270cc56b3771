/** The two string operations the core relies on: `str.lower()` (restricted to
    ASCII letters) and Python's substring test `needle in haystack`. */
module Text {

  /** ASCII lower-casing of one character; every other character is unchanged. */
  function LowerChar(c: char): (d: char)
    ensures 'A' <= c <= 'Z' ==> 'a' <= d <= 'z'
    ensures !('A' <= c <= 'Z') ==> d == c
  {
    if 'A' <= c <= 'Z' then (c as int + 32) as char else c
  }

  /** `s.lower()`, character by character. */
  function Lower(s: string): (r: string)
    ensures |r| == |s|
    ensures forall i :: 0 <= i < |s| ==> r[i] == LowerChar(s[i])
  {
    seq(|s|, k requires 0 <= k < |s| => LowerChar(s[k]))
  }

  /** The window of `haystack` starting at `i` spells `needle`. */
  ghost predicate OccursAt(needle: string, haystack: string, i: int) {
    0 <= i <= |haystack| - |needle| && haystack[i..i + |needle|] == needle
  }

  /** A window of `h` away from the front is the same window of `h[1..]`, one place earlier. */
  lemma WindowShift(h: string, i: int, n: nat)
    requires 1 <= i <= |h| - n
    ensures h[i..i + n] == h[1..][i - 1..i - 1 + n]
  {
    var a, b := h[i..i + n], h[1..][i - 1..i - 1 + n];
    assert |a| == |b| == n;
    forall k | 0 <= k < n
      ensures a[k] == b[k]
    {
      assert a[k] == h[i + k];
      assert b[k] == h[1..][i - 1 + k];
    }
  }

  /** `needle in haystack`: some window of the haystack spells the needle. */
  function Contains(needle: string, haystack: string): (r: bool)
    ensures r <==> exists i :: OccursAt(needle, haystack, i)
    decreases |haystack|
  {
    if |needle| > |haystack| then false
    else if haystack[..|needle|] == needle then
      assert OccursAt(needle, haystack, 0);
      true
    else
      var rest := haystack[1..];
      assert forall i :: OccursAt(needle, haystack, i) ==> i >= 1 && OccursAt(needle, rest, i - 1) by {
        forall i | OccursAt(needle, haystack, i) ensures i >= 1 && OccursAt(needle, rest, i - 1) {
          assert haystack[0..|needle|] == haystack[..|needle|];
          assert i >= 1;
          WindowShift(haystack, i, |needle|);
        }
      }
      assert forall j :: OccursAt(needle, rest, j) ==> OccursAt(needle, haystack, j + 1) by {
        forall j | OccursAt(needle, rest, j) ensures OccursAt(needle, haystack, j + 1) {
          WindowShift(haystack, j + 1, |needle|);
        }
      }
      Contains(needle, rest)
  }

  /** Lower-casing a lower-cased string changes nothing. */
  lemma LowerIdempotent(s: string)
    ensures Lower(Lower(s)) == Lower(s)
  {
  }

  /** Lower-casing commutes with taking a window. */
  lemma LowerSlice(s: string, i: nat, j: nat)
    requires i <= j <= |s|
    ensures Lower(s)[i..j] == Lower(s[i..j])
  {
  }

  /** A substring stays a substring once both sides are lower-cased: matching is case-insensitive. */
  lemma LowerPreservesContains(needle: string, haystack: string)
    requires Contains(needle, haystack)
    ensures Contains(Lower(needle), Lower(haystack))
  {
    var i :| OccursAt(needle, haystack, i);
    var n := |needle|;
    calc {
      Lower(haystack)[i..i + n];
      { LowerSlice(haystack, i, i + n); }
      Lower(haystack[i..i + n]);
      Lower(needle);
    }
    assert OccursAt(Lower(needle), Lower(haystack), i);
  }

  /** The empty string is contained in every string. */
  lemma EmptyContained(haystack: string)
    ensures Contains("", haystack)
  {
    assert OccursAt("", haystack, 0);
  }
}
