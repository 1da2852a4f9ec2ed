/** Substring search on text, case-sensitive and case-insensitive, as used to
    classify status labels. */
module Text {

  /** `p` occurs in `s` starting at index `i`. */
  predicate OccursAt(s: string, p: string, i: int) {
    0 <= i && i + |p| <= |s| && s[i..i + |p|] == p
  }

  /** `p` is a substring of `s`. */
  predicate Contains(s: string, p: string) {
    exists i :: 0 <= i <= |s| - |p| && OccursAt(s, p, i)
  }

  /** Lower-case mapping of one character: the ASCII letters and the Latin-1
      capitals (except the multiplication sign) move up by 32 code points;
      every other character is its own lower case. */
  function LowerChar(c: char): char {
    if 'A' <= c <= 'Z' || ('À' <= c <= 'Þ' && c != '×') then (c as int + 32) as char else c
  }

  function Lower(s: string): string {
    seq(|s|, i requires 0 <= i < |s| => LowerChar(s[i]))
  }

  /** Case-insensitive substring test: both sides are compared in lower case. */
  predicate ContainsIgnoreCase(s: string, p: string) {
    Contains(Lower(s), Lower(p))
  }

  /** A text lacking some character of the pattern cannot contain the pattern. */
  lemma AbsentCharRefutes(s: string, p: string, c: char)
    requires c in p && c !in s
    ensures !Contains(s, p)
  {
  }

  /** A character that no character of `s` lowers to is absent from the
      lower-case form of `s`. */
  lemma LowerAbsent(s: string, c: char)
    requires forall d | d in s :: LowerChar(d) != c
    ensures c !in Lower(s)
  {
  }

  /** Case-insensitive refutation: some character of the lowered pattern is
      the lower case of no character of the text. */
  lemma IgnoreCaseRefutes(s: string, p: string, c: char)
    requires c in Lower(p)
    requires forall d | d in s :: LowerChar(d) != c
    ensures !ContainsIgnoreCase(s, p)
  {
    LowerAbsent(s, c);
    AbsentCharRefutes(Lower(s), Lower(p), c);
  }

  /** Case-sensitive containment implies case-insensitive containment. */
  lemma ContainsIgnoringCase(s: string, p: string)
    requires Contains(s, p)
    ensures ContainsIgnoreCase(s, p)
  {
    var i :| 0 <= i <= |s| - |p| && OccursAt(s, p, i);
    assert Lower(s)[i..i + |p|] == Lower(p);
    assert OccursAt(Lower(s), Lower(p), i);
  }
}
