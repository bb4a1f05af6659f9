/**
 * The two string operations the pages rely on: `String.prototype.trim`
 * (used by the project rename) and `String.prototype.startsWith` (used by the
 * video MIME-type check). Whitespace is a small fixed set of characters rather
 * than the full Unicode white-space class.
 */
module Text {

  predicate IsSpace(c: char)
  {
    c == ' ' || c == '\t' || c == '\n' || c == '\r' || c == '\U{B}' || c == '\U{C}'
  }

  /** Every character of `s` is white space (vacuously true of the empty string). */
  predicate AllSpace(s: string)
  {
    forall i :: 0 <= i < |s| ==> IsSpace(s[i])
  }

  /** `s.startsWith(prefix)`: `s` is `prefix` followed by the rest of `s`. */
  function StartsWith(s: string, prefix: string): (b: bool)
    ensures b <==> |prefix| <= |s| && s == prefix + s[|prefix|..]
  {
    |prefix| <= |s| && s[..|prefix|] == prefix
  }

  /** Where the leading white space of `s[from..]` ends: the first non-space index at or after `from`, or `|s|`. */
  function SkipSpaceForward(s: string, from: nat): (lo: nat)
    requires from <= |s|
    ensures from <= lo <= |s|
    ensures forall i :: from <= i < lo ==> IsSpace(s[i])
    ensures lo == |s| || !IsSpace(s[lo])
    decreases |s| - from
  {
    if from < |s| && IsSpace(s[from]) then SkipSpaceForward(s, from + 1) else from
  }

  /** Where the trailing white space of `s[lo..upTo]` starts: just past the last non-space index below `upTo`, or `lo`. */
  function SkipSpaceBackward(s: string, lo: nat, upTo: nat): (hi: nat)
    requires lo <= upTo <= |s|
    ensures lo <= hi <= upTo
    ensures forall i :: hi <= i < upTo ==> IsSpace(s[i])
    ensures hi == lo || !IsSpace(s[hi - 1])
    decreases upTo
  {
    if lo < upTo && IsSpace(s[upTo - 1]) then SkipSpaceBackward(s, lo, upTo - 1) else upTo
  }

  /**
   * `s.trim()`: `s` with exactly its leading and trailing white space cut
   * off. The result is the piece `s[lo..hi]`, everything outside it is white
   * space, it neither starts nor ends with white space, and it is empty
   * exactly when `s` is all white space.
   */
  function Trim(s: string): (r: string)
    ensures var lo := SkipSpaceForward(s, 0); var hi := SkipSpaceBackward(s, lo, |s|);
      && lo <= hi <= |s| && r == s[lo..hi]
      && (forall i :: 0 <= i < lo ==> IsSpace(s[i]))
      && (forall i :: hi <= i < |s| ==> IsSpace(s[i]))
    ensures r == [] || (!IsSpace(r[0]) && !IsSpace(r[|r| - 1]))
    ensures r == [] <==> AllSpace(s)
  {
    var lo := SkipSpaceForward(s, 0);
    var hi := SkipSpaceBackward(s, lo, |s|);
    assert lo < hi ==> !IsSpace(s[lo]);
    s[lo..hi]
  }

  /** A string with no white space at either end is its own trim. */
  lemma {:induction false} TrimOfTrimmed(s: string)
    requires s == [] || (!IsSpace(s[0]) && !IsSpace(s[|s| - 1]))
    ensures Trim(s) == s
  {
    assert SkipSpaceForward(s, 0) == 0;
    assert SkipSpaceBackward(s, 0, |s|) == |s|;
  }

  /** Trimming twice is trimming once. */
  lemma TrimIdempotent(s: string)
    ensures Trim(Trim(s)) == Trim(s)
  {
    TrimOfTrimmed(Trim(s));
  }
}
