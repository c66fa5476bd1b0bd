/** The two string operations the sentiment classifiers use: `toLowerCase` and `includes`. */
module Strings {

  /** Lower-case one character; only the ASCII letters A to Z change. */
  predicate IsUpper(c: char)
  {
    'A' <= c <= 'Z'
  }

  function LowerChar(c: char): char
  {
    if IsUpper(c) then (c as int + 32) as char else c
  }

  /** `s.toLowerCase()`, character by character. */
  function Lower(s: string): (r: string)
    ensures |r| == |s|
    ensures forall i :: 0 <= i < |s| ==> r[i] == LowerChar(s[i])
  {
    if s == [] then [] else [LowerChar(s[0])] + Lower(s[1..])
  }

  /** `w` occurs in `s` starting at index `i`. */
  ghost predicate OccursAt(s: string, w: string, i: int)
  {
    0 <= i && i + |w| <= |s| && s[i..i + |w|] == w
  }

  /** `s.includes(w)`: some window of `s` equals `w`; the empty word occurs in every string. */
  function Includes(s: string, w: string): (r: bool)
    ensures r <==> exists i :: OccursAt(s, w, i)
    decreases |s|
  {
    if |w| > |s| then false
    else if s[..|w|] == w then (assert OccursAt(s, w, 0); true)
    else
      var r := Includes(s[1..], w);
      assert !OccursAt(s, w, 0);
      assert forall i :: OccursAt(s[1..], w, i) <==> OccursAt(s, w, i + 1) by {
        forall i ensures OccursAt(s[1..], w, i) <==> OccursAt(s, w, i + 1) {
          if 0 <= i && i + |w| <= |s| - 1 {
            assert s[1..][i..i + |w|] == s[i + 1..i + 1 + |w|];
          }
        }
      }
      assert (exists i :: OccursAt(s, w, i)) ==> exists i :: OccursAt(s[1..], w, i) by {
        if exists i :: OccursAt(s, w, i) {
          var i :| OccursAt(s, w, i);
          assert i != 0;
          assert OccursAt(s[1..], w, i - 1);
        }
      }
      r
  }

  /** Lower-casing twice is lower-casing once. */
  lemma LowerIdempotent(s: string)
    ensures Lower(Lower(s)) == Lower(s)
  {
  }

  /** Lower-casing works piecewise over concatenation. */
  lemma LowerAppend(a: string, b: string)
    ensures Lower(a + b) == Lower(a) + Lower(b)
  {
  }

  /** A string without upper-case letters is its own lower-case form. */
  lemma LowerOfLowercase(s: string)
    requires forall i :: 0 <= i < |s| ==> !IsUpper(s[i])
    ensures Lower(s) == s
  {
  }

  /** An occurrence survives adding text on either side. */
  lemma IncludesInContext(s: string, w: string, before: string, after: string)
    requires Includes(s, w)
    ensures Includes(before + s + after, w)
  {
    var i :| OccursAt(s, w, i);
    var t := before + s + after;
    assert t[|before| + i..|before| + i + |w|] == s[i..i + |w|];
    assert OccursAt(t, w, |before| + i);
  }
}
