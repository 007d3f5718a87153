/** The string operations the normalisers use: `str.lower()`,
    `str.replace(" ", "")` and the substring test `needle in hay`. */
module Text {

  /** Lower-casing of one character (ASCII letters only). */
  function LowerChar(c: char): char {
    if 'A' <= c <= 'Z' then (c as int + 32) as char else c
  }

  /** `s.lower()`, restricted to ASCII letters. */
  function Lower(s: string): (r: string)
    ensures |r| == |s|
    ensures forall i :: 0 <= i < |s| ==> r[i] == LowerChar(s[i])
  {
    seq(|s|, i requires 0 <= i < |s| => LowerChar(s[i]))
  }

  /** Lower-casing twice is lower-casing once. */
  lemma LowerIdempotent(s: string)
    ensures Lower(Lower(s)) == Lower(s)
  {
  }

  /** `s.replace(" ", "")`: drops every space and keeps the other
      characters in order. */
  function WithoutSpaces(s: string): (r: string)
    ensures forall i :: 0 <= i < |r| ==> r[i] != ' '
    ensures forall c :: c in r <==> c in s && c != ' '
    ensures |r| <= |s|
    decreases |s|
  {
    if |s| == 0 then ""
    else if s[0] == ' ' then WithoutSpaces(s[1..])
    else [s[0]] + WithoutSpaces(s[1..])
  }

  /** A string with no upper-case letter is its own lower-case form. */
  lemma LowerFixed(s: string)
    requires forall i :: 0 <= i < |s| ==> !('A' <= s[i] <= 'Z')
    ensures Lower(s) == s
  {
  }

  /** A string with no space is left alone by `replace(" ", "")`. */
  lemma {:induction false} WithoutSpacesFixed(s: string)
    requires forall i :: 0 <= i < |s| ==> s[i] != ' '
    ensures WithoutSpaces(s) == s
    decreases |s|
  {
    if |s| > 0 {
      assert forall i :: 0 <= i < |s[1..]| ==> s[1..][i] == s[i + 1];
      WithoutSpacesFixed(s[1..]);
      assert s == [s[0]] + s[1..];
    }
  }

  /** `needle` occurs in `hay` starting at position `i`. */
  predicate OccursAt(needle: string, hay: string, i: int) {
    0 <= i && i + |needle| <= |hay| && hay[i..i + |needle|] == needle
  }

  lemma OccursShift(needle: string, hay: string, i: int)
    requires |hay| > 0 && i >= 0
    ensures OccursAt(needle, hay[1..], i) <==> OccursAt(needle, hay, i + 1)
  {
    if 0 <= i && i + |needle| <= |hay| - 1 {
      assert hay[1..][i..i + |needle|] == hay[i + 1..i + 1 + |needle|];
    }
  }

  /** Python's `needle in hay` on strings: a substring test. */
  function Contains(hay: string, needle: string): (b: bool)
    ensures b <==> exists i :: OccursAt(needle, hay, i)
    decreases |hay|
  {
    if |needle| <= |hay| && hay[..|needle|] == needle then
      assert OccursAt(needle, hay, 0);
      true
    else if |hay| == 0 then
      false
    else
      var b := Contains(hay[1..], needle);
      assert b ==> exists i :: OccursAt(needle, hay, i) by {
        if b {
          var i :| OccursAt(needle, hay[1..], i);
          OccursShift(needle, hay, i);
        }
      }
      assert (exists i :: OccursAt(needle, hay, i)) ==> b by {
        if exists i :: OccursAt(needle, hay, i) {
          var i :| OccursAt(needle, hay, i);
          assert i >= 1;
          OccursShift(needle, hay, i - 1);
        }
      }
      b
  }
}
