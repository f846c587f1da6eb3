/** Character-level helpers shared by the command-line dispatcher (Python's
    `str.upper`) and the event property table (Java's `String.toUpperCase`).
    Both are modelled on the ASCII letters only. */
module Ascii {

  /** The upper-case form of one character: `a`..`z` map to `A`..`Z`,
      every other character is left as it is. */
  function UpperChar(c: char): (r: char)
    ensures 'a' <= c <= 'z' ==> 'A' <= r <= 'Z' && r as int - 'A' as int == c as int - 'a' as int
    ensures !('a' <= c <= 'z') ==> r == c
  {
    if 'a' <= c <= 'z' then (c as int - 'a' as int + 'A' as int) as char else c
  }

  /** Upper-cases a whole string, character by character. */
  function Upper(s: string): (r: string)
    ensures |r| == |s|
    ensures forall i :: 0 <= i < |s| ==> r[i] == UpperChar(s[i])
  {
    if s == [] then [] else [UpperChar(s[0])] + Upper(s[1..])
  }

  /** True when the string has no lower-case ASCII letter. */
  predicate IsUpper(s: string)
  {
    forall i :: 0 <= i < |s| ==> !('a' <= s[i] <= 'z')
  }

  /** Upper-casing leaves no lower-case letter behind, and an upper-case string
      is its own upper-case form. */
  lemma UpperIsUpper(s: string)
    ensures IsUpper(Upper(s))
    ensures IsUpper(s) ==> Upper(s) == s
  {
  }

  /** Upper-casing twice is upper-casing once. */
  lemma UpperIdempotent(s: string)
    ensures Upper(Upper(s)) == Upper(s)
  {
    UpperIsUpper(s);
    UpperIsUpper(Upper(s));
  }

  /** A character-by-character check that `t` is the upper-case form of `s`
      from position `i` on; it evaluates cheaply on string literals. */
  predicate UppersFrom(s: string, t: string, i: nat)
    requires |s| == |t| && i <= |s|
    decreases |s| - i
  {
    i == |s| || (UpperChar(s[i]) == t[i] && UppersFrom(s, t, i + 1))
  }

  lemma {:induction false} UppersFromAt(s: string, t: string, i: nat)
    requires |s| == |t| && i <= |s| && UppersFrom(s, t, i)
    ensures forall j :: i <= j < |s| ==> UpperChar(s[j]) == t[j]
    decreases |s| - i
  {
    if i < |s| {
      UppersFromAt(s, t, i + 1);
    }
  }

  lemma UppersTo(s: string, t: string)
    requires |s| == |t| && UppersFrom(s, t, 0)
    ensures Upper(s) == t
  {
    UppersFromAt(s, t, 0);
  }
}
