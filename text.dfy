/** The string primitives the client relies on: `toLowerCase`, `toUpperCase`
    (both on the ASCII letters only) and `String.prototype.includes`. */
module Text {

  function LowerChar(c: char): (d: char)
    ensures 'A' <= c <= 'Z' ==> d as int == c as int + 32
    ensures !('A' <= c <= 'Z') ==> d == c
  {
    if 'A' <= c <= 'Z' then (c as int + 32) as char else c
  }

  function UpperChar(c: char): (d: char)
    ensures 'a' <= c <= 'z' ==> d as int == c as int - 32
    ensures !('a' <= c <= 'z') ==> d == c
  {
    if 'a' <= c <= 'z' then (c as int - 32) as char else c
  }

  /** `s.toLowerCase()`. */
  function Lower(s: string): (r: string)
    ensures |r| == |s|
    ensures forall i :: 0 <= i < |s| ==> r[i] == LowerChar(s[i])
  {
    seq(|s|, i requires 0 <= i < |s| => LowerChar(s[i]))
  }

  /** `needle` occurs in `s` starting at position `i`. */
  predicate OccursAt(s: string, needle: string, i: int) {
    0 <= i <= |s| - |needle| && s[i..i + |needle|] == needle
  }

  lemma OccursAtTail(s: string, needle: string, i: int)
    requires s != [] && 0 <= i
    ensures OccursAt(s[1..], needle, i) <==> OccursAt(s, needle, i + 1)
  {
    if 0 <= i <= |s[1..]| - |needle| {
      assert s[1..][i..i + |needle|] == s[i + 1..i + 1 + |needle|];
    }
  }

  /** `s.includes(needle)`: `needle` occurs in `s` as a contiguous block. */
  function Contains(s: string, needle: string): (b: bool)
    ensures b <==> exists i :: OccursAt(s, needle, i)
    decreases |s|
  {
    if |needle| <= |s| && s[..|needle|] == needle then
      assert OccursAt(s, needle, 0);
      true
    else if s == [] then
      assert forall i :: !OccursAt(s, needle, i);
      false
    else
      var b := Contains(s[1..], needle);
      if b then
        var i :| OccursAt(s[1..], needle, i);
        OccursAtTail(s, needle, i);
        b
      else
        forall i | OccursAt(s, needle, i) ensures false {
          assert i != 0;
          OccursAtTail(s, needle, i - 1);
        }
        b
  }
}
