/**
 Strings as `seq<char>`: Python's substring test `needle in hay` and the
 case-insensitive comparison used when a connection is validated.
 */
module Text {

  /** `needle` occurs in `hay` starting at position `i`. */
  predicate OccursAt(hay: string, needle: string, i: int)
  {
    0 <= i && i + |needle| <= |hay| && hay[i..i + |needle|] == needle
  }

  /** Python's `needle in hay` on strings: true when `needle` occurs somewhere
      in `hay` (so the empty string is in every string). */
  predicate Contains(hay: string, needle: string)
  {
    exists i | 0 <= i <= |hay| - |needle| :: OccursAt(hay, needle, i)
  }

  /** Every string contains the empty string and its own prefixes. */
  lemma ContainsPrefix(prefix: string, s: string)
    requires prefix <= s
    ensures Contains(s, prefix)
  {
    assert OccursAt(s, prefix, 0);
  }

  /** A string contains whatever any of its parts contains. */
  lemma ContainsInMiddle(a: string, needle: string, b: string)
    ensures Contains(a + needle + b, needle)
  {
    var s := a + needle + b;
    assert s[|a|..|a| + |needle|] == needle;
    assert OccursAt(s, needle, |a|);
  }

  /** A needle is never longer than a string that contains it. */
  lemma ContainedIsShorter(hay: string, needle: string)
    requires Contains(hay, needle)
    ensures |needle| <= |hay|
  {
    var i :| 0 <= i <= |hay| - |needle| && OccursAt(hay, needle, i);
  }

  /** ASCII lower-casing of one character; other characters are unchanged. */
  function LowerChar(c: char): (d: char)
    ensures 'A' <= c <= 'Z' ==> 'a' <= d <= 'z' && d as int - c as int == 'a' as int - 'A' as int
    ensures !('A' <= c <= 'Z') ==> d == c
  {
    if 'A' <= c <= 'Z' then (c as int - 'A' as int + 'a' as int) as char else c
  }

  /** `str.lower()`, restricted to the ASCII letters. */
  function ToLower(s: string): (r: string)
    ensures |r| == |s|
    ensures forall i :: 0 <= i < |s| ==> r[i] == LowerChar(s[i])
  {
    seq(|s|, i requires 0 <= i < |s| => LowerChar(s[i]))
  }

  /** `a.lower() == b.lower()` */
  predicate EqualIgnoringCase(a: string, b: string)
  {
    ToLower(a) == ToLower(b)
  }

  /** Case-insensitive equality ignores exactly the ASCII case of each letter. */
  lemma EqualIgnoringCaseCharwise(a: string, b: string)
    ensures EqualIgnoringCase(a, b) <==>
              |a| == |b| && forall i :: 0 <= i < |a| ==> LowerChar(a[i]) == LowerChar(b[i])
  {
    if |a| == |b| && forall i :: 0 <= i < |a| ==> LowerChar(a[i]) == LowerChar(b[i]) {
      assert ToLower(a) == ToLower(b);
    }
  }
}
