/**
 * String helpers used by the catalog search: lower-casing and
 * `String.prototype.includes`.  Lower-casing is modelled on ASCII only.
 */
module Text {

  /** `toLowerCase` on one character, restricted to the ASCII letters. */
  function LowerChar(c: char): char
  {
    if 'A' <= c <= 'Z' then (c as int + 32) as char else c
  }

  /** `s.toLowerCase()`: every character lower-cased, nothing else changed. */
  function Lower(s: string): (r: string)
    ensures |r| == |s|
    ensures forall i :: 0 <= i < |s| ==> r[i] == LowerChar(s[i])
  {
    if s == [] then [] else [LowerChar(s[0])] + Lower(s[1..])
  }

  /** `t` occurs in `s` starting at position `i`. */
  predicate OccursAt(s: string, t: string, i: nat)
  {
    i + |t| <= |s| && s[i..i + |t|] == t
  }

  /**
   * `s.includes(t)`: true exactly when `t` occurs somewhere in `s`
   * (the empty string occurs everywhere).
   */
  function Includes(s: string, t: string): (b: bool)
    ensures b <==> exists i: nat :: OccursAt(s, t, i)
  {
    if |t| > |s| then
      assert forall i: nat :: !OccursAt(s, t, i);
      false
    else if s[..|t|] == t then
      assert OccursAt(s, t, 0);
      true
    else
      var b := Includes(s[1..], t);
      assert b ==> exists i: nat :: OccursAt(s, t, i) by {
        if b {
          var k: nat :| OccursAt(s[1..], t, k);
          assert s[k + 1..k + 1 + |t|] == s[1..][k..k + |t|];
          assert OccursAt(s, t, k + 1);
        }
      }
      assert (exists i: nat :: OccursAt(s, t, i)) ==> b by {
        if exists i: nat :: OccursAt(s, t, i) {
          var k: nat :| OccursAt(s, t, k);
          assert k != 0;
          assert s[1..][k - 1..k - 1 + |t|] == s[k..k + |t|];
          assert OccursAt(s[1..], t, k - 1);
        }
      }
      b
  }

  /** The empty search term is found in every string. */
  lemma EmptyIsIncluded(s: string)
    ensures Includes(s, "")
  {
    assert OccursAt(s, "", 0);
  }
}
