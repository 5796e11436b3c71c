/**
 * String helpers with the meaning of the JavaScript String methods the
 * source uses: `indexOf`, `replace` with a string pattern (first occurrence
 * only) and prefix tests.
 */
module Text {

  /** `pat` occurs in `s` starting at position `i`. */
  predicate OccursAt(s: string, pat: string, i: int)
  {
    0 <= i && i + |pat| <= |s| && s[i..i + |pat|] == pat
  }

  predicate Contains(s: string, pat: string)
  {
    exists i | 0 <= i <= |s| :: OccursAt(s, pat, i)
  }

  /** `String.prototype.indexOf`: the first position of `pat`, or -1. */
  function IndexOf(s: string, pat: string): (r: int)
    ensures -1 <= r <= |s|
    ensures r == -1 <==> !Contains(s, pat)
    ensures r >= 0 ==> OccursAt(s, pat, r) && forall j :: 0 <= j < r ==> !OccursAt(s, pat, j)
  {
    IndexFrom(s, pat, 0)
  }

  function IndexFrom(s: string, pat: string, from: nat): (r: int)
    requires from <= |s| + 1
    requires forall j :: 0 <= j < from ==> !OccursAt(s, pat, j)
    ensures -1 <= r <= |s|
    ensures r == -1 <==> !Contains(s, pat)
    ensures r >= 0 ==> from <= r && OccursAt(s, pat, r) && forall j :: 0 <= j < r ==> !OccursAt(s, pat, j)
    decreases |s| + 1 - from
  {
    if from + |pat| > |s| then
      assert forall j :: from <= j ==> !OccursAt(s, pat, j);
      -1
    else if s[from..from + |pat|] == pat then
      assert OccursAt(s, pat, from);
      from
    else IndexFrom(s, pat, from + 1)
  }

  /** `s.replace(pat, rep)` with a string pattern: only the first occurrence is replaced. */
  function ReplaceFirst(s: string, pat: string, rep: string): string
  {
    var k := IndexOf(s, pat);
    if k < 0 then s else s[..k] + rep + s[k + |pat|..]
  }

  /** ReplaceFirst removes exactly the first occurrence and leaves everything else in place. */
  lemma ReplaceFirstSplits(s: string, pat: string, rep: string)
    ensures !Contains(s, pat) ==> ReplaceFirst(s, pat, rep) == s
    ensures Contains(s, pat) ==>
      exists k :: OccursAt(s, pat, k) && (forall j :: 0 <= j < k ==> !OccursAt(s, pat, j))
        && ReplaceFirst(s, pat, rep) == s[..k] + rep + s[k + |pat|..]
  {
    if Contains(s, pat) {
      var k := IndexOf(s, pat);
      assert OccursAt(s, pat, k);
    }
  }

  /**
   * Only the first occurrence goes: when `pat` occurs twice without overlap,
   * deleting the first one leaves the second in the result.
   */
  lemma ReplaceFirstKeepsLaterOccurrence(s: string, pat: string, i: int, j: int)
    requires OccursAt(s, pat, i) && OccursAt(s, pat, j) && i + |pat| <= j
    ensures Contains(ReplaceFirst(s, pat, ""), pat)
  {
    var k := IndexOf(s, pat);
    assert 0 <= k <= i;
    var r := ReplaceFirst(s, pat, "");
    assert r == s[..k] + s[k + |pat|..];
    var j' := j - |pat|;
    assert r[j'..j' + |pat|] == s[j..j + |pat|];
    assert OccursAt(r, pat, j');
  }
}
