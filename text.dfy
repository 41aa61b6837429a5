/**
 * The two string operations the noise predicate relies on: lower-casing
 * (strings.ToLower, restricted to ASCII) and substring search
 * (strings.Contains), the latter proved against an independent,
 * position-based definition of "occurs in".
 */
module Text {

  predicate IsUpper(c: char) {
    'A' <= c <= 'Z'
  }

  /** Lower-cases one ASCII letter; every other character is left alone. */
  function LowerChar(c: char): (r: char)
    ensures !IsUpper(r)
    ensures !IsUpper(c) ==> r == c
    ensures IsUpper(c) ==> 'a' <= r <= 'z' && r as int - 'a' as int == c as int - 'A' as int
  {
    if IsUpper(c) then (c as int - 'A' as int + 'a' as int) as char else c
  }

  /** strings.ToLower over ASCII: the same length, lowered character by character. */
  function Lower(s: string): (r: string)
    ensures |r| == |s|
    ensures forall i :: 0 <= i < |s| ==> r[i] == LowerChar(s[i])
  {
    seq(|s|, i requires 0 <= i < |s| => LowerChar(s[i]))
  }

  /** `sub` stands in `s` starting at position `i`. */
  ghost predicate MatchAt(s: string, sub: string, i: int) {
    0 <= i && i + |sub| <= |s| && s[i..i + |sub|] == sub
  }

  /** The reference meaning of substring containment. */
  ghost predicate Occurs(s: string, sub: string) {
    exists i :: MatchAt(s, sub, i)
  }

  /** strings.Contains: a left-to-right search for `sub` in `s`. */
  function Contains(s: string, sub: string): (b: bool)
    ensures b <==> Occurs(s, sub)
    decreases |s|
  {
    if |sub| > |s| then
      false
    else if s[..|sub|] == sub then
      assert MatchAt(s, sub, 0);
      true
    else
      var b := Contains(s[1..], sub);
      ShiftOccurs(s, sub);
      b
  }

  /** An occurrence past the first position is an occurrence in the tail, and back. */
  lemma ShiftOccurs(s: string, sub: string)
    requires |s| > 0 && !MatchAt(s, sub, 0)
    ensures Occurs(s, sub) <==> Occurs(s[1..], sub)
  {
    if Occurs(s, sub) {
      var i :| MatchAt(s, sub, i);
      assert i > 0;
      assert s[1..][i - 1..i - 1 + |sub|] == s[i..i + |sub|];
      assert MatchAt(s[1..], sub, i - 1);
    }
    if Occurs(s[1..], sub) {
      var i :| MatchAt(s[1..], sub, i);
      assert s[i + 1..i + 1 + |sub|] == s[1..][i..i + |sub|];
      assert MatchAt(s, sub, i + 1);
    }
  }

  /** Lower-casing twice is lower-casing once. */
  lemma LowerIdempotent(s: string)
    ensures Lower(Lower(s)) == Lower(s)
  {
  }

  /** A string with no upper-case letter is its own lower-case form. */
  lemma LowerOfLowercase(s: string)
    requires forall i :: 0 <= i < |s| ==> !IsUpper(s[i])
    ensures Lower(s) == s
  {
  }

  /** Two strings that agree up to the case of ASCII letters lower to the same string. */
  lemma SameUpToCase(s: string, t: string)
    requires |s| == |t|
    requires forall i :: 0 <= i < |s| ==> LowerChar(s[i]) == LowerChar(t[i])
    ensures Lower(s) == Lower(t)
  {
  }

  /** If `sub` holds a character that `s` lacks, `sub` does not occur in `s`. */
  lemma MissingCharNoOccurrence(s: string, sub: string, c: char)
    requires c in sub && c !in s
    ensures !Occurs(s, sub)
  {
  }
}
