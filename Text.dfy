/**
 * Literal-string tests that stand in for the regular expressions of the
 * device detector. Only the shapes the detector uses are modelled: a literal
 * (`/p/`) and a literal followed, later on the same line, by another literal
 * (`/a.*b/`), each with and without the `/i` flag.
 *
 * Every pattern in the detector is ASCII. A JavaScript `/i` regular expression
 * without the `u` flag canonicalises characters by upper-casing them, but never
 * maps a non-ASCII character onto an ASCII one, so against an ASCII pattern it
 * behaves exactly like folding the ASCII letters alone, which is what `Lower`
 * does.
 */
module Text {

  /** `s` holds `p` starting at index `i`. */
  predicate OccursAt(s: string, p: string, i: int) {
    0 <= i && i + |p| <= |s| && s[i..i + |p|] == p
  }

  /** `/p/.test(s)` for a pattern `p` without metacharacters. */
  predicate Contains(s: string, p: string) {
    exists i :: 0 <= i <= |s| && OccursAt(s, p, i)
  }

  /** The characters that `.` does not match in a regular expression without the `s` flag. */
  predicate IsLineTerminator(c: char) {
    c == '\n' || c == '\r' || c == '\U{2028}' || c == '\U{2029}'
  }

  /** `/a.*b/.test(s)`: `a` occurs, and `b` occurs after it with no line terminator in between. */
  predicate FollowedBy(s: string, a: string, b: string) {
    exists i, j ::
      0 <= i <= |s| && 0 <= j <= |s| && OccursAt(s, a, i) && i + |a| <= j && OccursAt(s, b, j) &&
      forall m :: i + |a| <= m < j ==> !IsLineTerminator(s[m])
  }

  /** ASCII upper-case letters become lower-case; every other character is kept. */
  function LowerChar(c: char): (r: char)
    ensures 'A' <= c <= 'Z' ==> 'a' <= r <= 'z' && r as int - c as int == 32
    ensures !('A' <= c <= 'Z') ==> r == c
  {
    if 'A' <= c <= 'Z' then (c as int + 32) as char else c
  }

  /**
   * `a` and `b` are the same character up to ASCII case: equal, or an ASCII
   * upper-case letter and its lower-case partner, in either order.
   */
  predicate SameUpToCase(a: char, b: char) {
    a == b ||
    ('A' <= a <= 'Z' && b as int == a as int + 32) ||
    ('A' <= b <= 'Z' && a as int == b as int + 32)
  }

  /** Case folding for an ASCII pattern under `/i`: no upper-case letter survives, and every character keeps its identity up to case. */
  function Lower(s: string): (r: string)
    ensures |r| == |s|
    ensures forall i :: 0 <= i < |r| ==> !('A' <= r[i] <= 'Z')
    ensures forall i :: 0 <= i < |s| ==> SameUpToCase(s[i], r[i])
  {
    seq(|s|, i requires 0 <= i < |s| => LowerChar(s[i]))
  }

  /** Two characters fold to the same character exactly when they are the same up to ASCII case. */
  lemma LowerCharEqualIff(a: char, b: char)
    ensures LowerChar(a) == LowerChar(b) <==> SameUpToCase(a, b)
  {
  }

  /**
   * Two strings fold to the same string exactly when they have the same length
   * and agree character by character up to ASCII case: the character equality
   * a non-unicode `/i` regular expression uses against an ASCII pattern.
   */
  lemma LowerEqualIff(s: string, t: string)
    ensures Lower(s) == Lower(t) <==> |s| == |t| && forall i :: 0 <= i < |s| ==> SameUpToCase(s[i], t[i])
  {
    if Lower(s) == Lower(t) {
      forall i | 0 <= i < |s|
        ensures SameUpToCase(s[i], t[i])
      {
        assert Lower(s)[i] == LowerChar(s[i]) && Lower(t)[i] == LowerChar(t[i]);
        LowerCharEqualIff(s[i], t[i]);
      }
    }
    if |s| == |t| && forall i :: 0 <= i < |s| ==> SameUpToCase(s[i], t[i]) {
      forall i | 0 <= i < |s|
        ensures Lower(s)[i] == Lower(t)[i]
      {
        LowerCharEqualIff(s[i], t[i]);
      }
    }
  }

  /** `/p/i.test(s)`. */
  predicate ContainsCI(s: string, p: string) {
    Contains(Lower(s), Lower(p))
  }

  /** `/a.*b/i.test(s)`. */
  predicate FollowedByCI(s: string, a: string, b: string) {
    FollowedBy(Lower(s), Lower(a), Lower(b))
  }

  /** A match of `a.*b` holds a match of `a` and a match of `b`. */
  lemma FollowedByContainsBoth(s: string, a: string, b: string)
    requires FollowedBy(s, a, b)
    ensures Contains(s, a) && Contains(s, b)
  {
    var i, j :| 0 <= i <= |s| && 0 <= j <= |s| && OccursAt(s, a, i) && i + |a| <= j && OccursAt(s, b, j) &&
      forall m :: i + |a| <= m < j ==> !IsLineTerminator(s[m]);
    assert OccursAt(s, a, i) && OccursAt(s, b, j);
  }

  /** The same, under the `/i` flag. */
  lemma FollowedByCIContainsBoth(s: string, a: string, b: string)
    requires FollowedByCI(s, a, b)
    ensures ContainsCI(s, a) && ContainsCI(s, b)
  {
    FollowedByContainsBoth(Lower(s), Lower(a), Lower(b));
  }

  /** A case-sensitive match is also a case-insensitive one. */
  lemma ContainsIsContainsCI(s: string, p: string)
    requires Contains(s, p)
    ensures ContainsCI(s, p)
  {
    var i :| 0 <= i <= |s| && OccursAt(s, p, i);
    assert Lower(s)[i..i + |p|] == Lower(p) by {
      forall m | 0 <= m < |p|
        ensures Lower(s)[i..i + |p|][m] == Lower(p)[m]
      {
        assert s[i..i + |p|][m] == p[m];
      }
    }
    assert OccursAt(Lower(s), Lower(p), i);
  }

  /** Every character of a pattern that occurs in `s` is a character of `s`. */
  lemma ContainsHasChars(s: string, p: string, m: int)
    requires Contains(s, p) && 0 <= m < |p|
    ensures p[m] in s
  {
    var i :| 0 <= i <= |s| && OccursAt(s, p, i);
    assert s[i..i + |p|][m] == p[m];
  }

  /** A character of the folded string is the fold of a character of the original. */
  lemma LowerHasChars(s: string, c: char)
    requires c in Lower(s)
    ensures exists d :: d in s && LowerChar(d) == c
  {
    var i :| 0 <= i < |s| && Lower(s)[i] == c;
    assert s[i] in s;
  }

  /** Folding twice is folding once. */
  lemma LowerIdempotent(s: string)
    ensures Lower(Lower(s)) == Lower(s)
  {
  }

  /** The `/i` tests cannot tell a string from its lower-case form. */
  lemma ContainsCIIgnoresCase(s: string, p: string)
    ensures ContainsCI(Lower(s), p) == ContainsCI(s, p)
  {
    LowerIdempotent(s);
  }

  /** The same, for `/a.*b/i`. */
  lemma FollowedByCIIgnoresCase(s: string, a: string, b: string)
    ensures FollowedByCI(Lower(s), a, b) == FollowedByCI(s, a, b)
  {
    LowerIdempotent(s);
  }
}
