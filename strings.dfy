/**
 * The two string operations the bot's router relies on: lower-casing the
 * user's text (`str.lower`) and substring membership (`kw in text`).
 * Lower-casing is ASCII-only here; Python's `str.lower` is Unicode-wide.
 */
module Strings {

  /** Lower-cases one character: 'A'..'Z' become 'a'..'z', every other character is kept. */
  function LowerChar(c: char): (d: char)
    ensures !('A' <= d <= 'Z')
    ensures 'A' <= c <= 'Z' ==> d as int == c as int + 32
    ensures !('A' <= c <= 'Z') ==> d == c
  {
    if 'A' <= c <= 'Z' then (c as int + 32) as char else c
  }

  /** The text with every ASCII capital replaced by its small letter. */
  function Lower(s: string): (r: string)
    ensures |r| == |s|
    ensures forall i :: 0 <= i < |s| ==> r[i] == LowerChar(s[i])
  {
    seq(|s|, i requires 0 <= i < |s| => LowerChar(s[i]))
  }

  /** Lower-casing twice is lower-casing once. */
  lemma LowerIdempotent(s: string)
    ensures Lower(Lower(s)) == Lower(s)
  {
  }

  /** Lower-casing commutes with taking a slice. */
  lemma LowerSlice(s: string, i: int, j: int)
    requires 0 <= i <= j <= |s|
    ensures Lower(s[i..j]) == Lower(s)[i..j]
  {
  }

  /** `p` stands in `s` starting at index `i`. */
  ghost predicate OccursAt(s: string, p: string, i: int)
  {
    0 <= i && i + |p| <= |s| && s[i..i + |p|] == p
  }

  /** Python's `p in s` for strings: `p` is a substring of `s` (the empty string is in every string). */
  ghost predicate Occurs(s: string, p: string)
  {
    exists i :: OccursAt(s, p, i)
  }

  /** `p` stands in `s` at index `i` when letter case is ignored in `s`. */
  ghost predicate OccursAtIgnoringCase(s: string, p: string, i: int)
  {
    0 <= i && i + |p| <= |s| && Lower(s[i..i + |p|]) == p
  }

  /** An occurrence of `p` that is not at the front of `s` is an occurrence in `s[1..]`. */
  lemma OccursPastFront(s: string, p: string)
    requires |p| <= |s| && s[..|p|] != p
    ensures 0 < |s|
    ensures Occurs(s, p) <==> Occurs(s[1..], p)
  {
    if Occurs(s, p) {
      var i :| OccursAt(s, p, i);
      assert i != 0;
      assert s[1..][i - 1..i - 1 + |p|] == s[i..i + |p|];
      assert OccursAt(s[1..], p, i - 1);
    }
    if Occurs(s[1..], p) {
      var i :| OccursAt(s[1..], p, i);
      assert s[1..][i..i + |p|] == s[i + 1..i + 1 + |p|];
      assert OccursAt(s, p, i + 1);
    }
  }

  /** Substring membership, decided by trying each starting position from the left. */
  function Contains(s: string, p: string): (b: bool)
    ensures b <==> Occurs(s, p)
    decreases |s|
  {
    if |p| > |s| then
      false
    else if s[..|p|] == p then
      assert OccursAt(s, p, 0);
      true
    else
      OccursPastFront(s, p);
      Contains(s[1..], p)
  }

  /**
   * Matching a keyword against the lower-cased text finds it in any letter
   * case: `kw in text.lower()` holds exactly when some slice of `text`
   * lower-cases to `kw`.
   */
  lemma ContainsAfterLower(s: string, p: string)
    ensures Contains(Lower(s), p) <==> exists i :: OccursAtIgnoringCase(s, p, i)
  {
    if Contains(Lower(s), p) {
      var i :| OccursAt(Lower(s), p, i);
      LowerSlice(s, i, i + |p|);
      assert OccursAtIgnoringCase(s, p, i);
    }
    if exists i :: OccursAtIgnoringCase(s, p, i) {
      var i :| OccursAtIgnoringCase(s, p, i);
      LowerSlice(s, i, i + |p|);
      assert OccursAt(Lower(s), p, i);
    }
  }

  /** A letter that is in neither case in `s` is not in `Lower(s)`. */
  lemma LetterAbsentAfterLower(s: string, c: char)
    requires 'a' <= c <= 'z'
    requires forall k :: 0 <= k < |s| ==> s[k] != c && s[k] as int != c as int - 32
    ensures forall k :: 0 <= k < |Lower(s)| ==> Lower(s)[k] != c
  {
  }

  /** A string none of whose characters is the first character of `p` does not contain `p`. */
  lemma {:induction false} AbsentFirstChar(s: string, p: string)
    requires 0 < |p|
    requires forall k :: 0 <= k < |s| ==> s[k] != p[0]
    ensures !Occurs(s, p)
  {
    forall i | 0 <= i && i + |p| <= |s|
      ensures !OccursAt(s, p, i)
    {
      assert s[i..i + |p|][0] == s[i];
    }
  }
}
