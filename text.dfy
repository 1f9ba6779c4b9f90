/** String predicates the source uses: `endsWith`-style regex anchors, `includes`, and ILIKE. */
module Text {

  predicate IsPrefix(p: string, s: string) {
    |p| <= |s| && s[..|p|] == p
  }

  /** `s` ends with `suffix` (a regex anchored with `$`, no multiline flag). */
  predicate EndsWith(s: string, suffix: string) {
    |suffix| <= |s| && s[|s| - |suffix|..] == suffix
  }

  /** `s.includes(needle)`: `needle` occurs in `s` at some position. */
  predicate Contains(s: string, needle: string)
    decreases |s|
  {
    IsPrefix(needle, s) || (|s| > 0 && Contains(s[1..], needle))
  }

  /** ASCII lower-casing of one character. */
  function Lower(c: char): char {
    if 'A' <= c <= 'Z' then (c as int + 32) as char else c
  }

  function LowerString(s: string): (r: string)
    ensures |r| == |s|
    ensures forall i :: 0 <= i < |s| ==> r[i] == Lower(s[i])
  {
    seq(|s|, i requires 0 <= i < |s| => Lower(s[i]))
  }

  /** `column ILIKE '%needle%'`, read as case-insensitive substring containment. */
  predicate ContainsIgnoreCase(s: string, needle: string) {
    Contains(LowerString(s), LowerString(needle))
  }

  lemma {:induction false} ContainsEmpty(s: string)
    ensures Contains(s, "")
  {
    assert IsPrefix("", s);
  }

  lemma {:induction false} ContainsAt(s: string, needle: string, i: nat)
    requires i + |needle| <= |s| && s[i..i + |needle|] == needle
    ensures Contains(s, needle)
    decreases i
  {
    if i == 0 {
      assert s[..|needle|] == needle;
    } else {
      assert s[1..][i - 1..i - 1 + |needle|] == s[i..i + |needle|];
      ContainsAt(s[1..], needle, i - 1);
    }
  }

  lemma {:induction false} ContainsSelf(s: string)
    ensures Contains(s, s)
  {
    ContainsAt(s, s, 0);
  }
}
