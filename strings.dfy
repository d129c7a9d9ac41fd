/** Substring search on strings, as `string.Contains` performs it: ordinal,
    character by character. */
module Strings {

  /** `term` occurs in `s` starting at index `i`. */
  predicate OccursAt(term: string, s: string, i: int)
  {
    0 <= i && i + |term| <= |s| && s[i..i + |term|] == term
  }

  /** The reference meaning of substring: some index where `term` occurs. */
  ghost predicate IsSubstring(term: string, s: string)
  {
    exists i :: OccursAt(term, s, i)
  }

  /** `s.Contains(term)`, found by trying each starting index in turn. */
  function Contains(s: string, term: string): (b: bool)
    ensures b <==> IsSubstring(term, s)
    decreases |s|
  {
    if OccursAt(term, s, 0) then
      true
    else if |s| == 0 then
      false
    else
      ShiftOccurrence(term, s);
      Contains(s[1..], term)
  }

  /** When `term` does not occur at index 0 of a non-empty `s`, it occurs in
      `s` exactly when it occurs in `s` without its first character. */
  lemma ShiftOccurrence(term: string, s: string)
    requires |s| > 0 && !OccursAt(term, s, 0)
    ensures IsSubstring(term, s) <==> IsSubstring(term, s[1..])
  {
    if IsSubstring(term, s) {
      var i :| OccursAt(term, s, i);
      assert s[1..][i - 1..i - 1 + |term|] == s[i..i + |term|];
      assert OccursAt(term, s[1..], i - 1);
    }
    if IsSubstring(term, s[1..]) {
      var j :| OccursAt(term, s[1..], j);
      assert s[1..][j..j + |term|] == s[j + 1..j + 1 + |term|];
      assert OccursAt(term, s, j + 1);
    }
  }
}
