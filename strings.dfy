/**
 * Text helpers used by every search box of the storefront: a lower-casing
 * function standing for `toLowerCase`, the substring test standing for
 * `includes`, and the character classes of the regular expressions.
 */
module Strings {

  /** `toLowerCase` on one character; only the ASCII letters A-Z are mapped. */
  function LowerChar(c: char): (r: char)
    ensures 'A' <= c <= 'Z' ==> 'a' <= r <= 'z' && r as int - 'a' as int == c as int - 'A' as int
    ensures !('A' <= c <= 'Z') ==> r == c
  {
    if 'A' <= c <= 'Z' then (c as int + 32) as char else c
  }

  /** `toLowerCase` on a string, character by character. */
  function Lower(s: string): (r: string)
    ensures |r| == |s|
    ensures forall i :: 0 <= i < |s| ==> r[i] == LowerChar(s[i])
  {
    seq(|s|, i requires 0 <= i < |s| => LowerChar(s[i]))
  }

  /** `part` occurs in `text` starting at offset `i`. */
  predicate OccursAt(text: string, part: string, i: int)
  {
    0 <= i <= |text| - |part| && text[i..i + |part|] == part
  }

  /** `text.includes(part)`: `part` occurs in `text` at some offset. */
  predicate Contains(text: string, part: string)
  {
    exists i :: 0 <= i <= |text| - |part| && OccursAt(text, part, i)
  }

  /** The case-insensitive test every catalog search uses:
      `text.toLowerCase().includes(query.toLowerCase())`. */
  predicate MatchesQuery(text: string, query: string)
  {
    Contains(Lower(text), Lower(query))
  }

  /** An empty query occurs in every text, so it matches everything. */
  lemma EmptyQueryMatches(text: string)
    ensures MatchesQuery(text, "")
  {
    assert OccursAt(Lower(text), Lower(""), 0);
  }

  /** A text always contains itself, so an item's own name finds it. */
  lemma MatchesItself(text: string)
    ensures MatchesQuery(text, text)
  {
    assert OccursAt(Lower(text), Lower(text), 0);
  }

  /** Lower-casing is idempotent. */
  lemma LowerIdempotent(s: string)
    ensures Lower(Lower(s)) == Lower(s)
  {
  }

  /** The JavaScript `\s` class: ASCII white space, NBSP, the Unicode space
      separators, the line and paragraph separators and the byte-order mark. */
  predicate IsSpace(c: char)
  {
    var n := c as int;
    n == 9 || n == 10 || n == 11 || n == 12 || n == 13 || n == 32 || n == 160 ||
    n == 5760 || (8192 <= n <= 8202) || n == 8232 || n == 8233 || n == 8239 ||
    n == 8287 || n == 12288 || n == 65279
  }

  predicate IsDigit(c: char) { '0' <= c <= '9' }

  /** Every character of `s` satisfies `IsDigit`. */
  predicate AllDigits(s: string) { forall i :: 0 <= i < |s| ==> IsDigit(s[i]) }

  /** The value of a non-empty run of decimal digits. */
  function DigitsValue(s: string): (r: nat)
    requires AllDigits(s)
    decreases |s|
  {
    if s == [] then 0 else DigitsValue(s[..|s| - 1]) * 10 + (s[|s| - 1] as int - '0' as int)
  }

  /** Code-unit lexicographic order: `a` is a prefix of `b`, or the first
      difference has the smaller character in `a`. */
  predicate LexLe(a: string, b: string)
    decreases |a|
  {
    a == [] || (b != [] && (a[0] < b[0] || (a[0] == b[0] && LexLe(a[1..], b[1..]))))
  }

  lemma {:induction false} LexLeTotal(a: string, b: string)
    ensures LexLe(a, b) || LexLe(b, a)
    decreases |a|
  {
    if a != [] && b != [] && a[0] == b[0] {
      LexLeTotal(a[1..], b[1..]);
    }
  }

  lemma {:induction false} LexLeTransitive(a: string, b: string, c: string)
    requires LexLe(a, b) && LexLe(b, c)
    ensures LexLe(a, c)
    decreases |a|
  {
    if a != [] && a[0] == b[0] && b[0] == c[0] {
      LexLeTransitive(a[1..], b[1..], c[1..]);
    }
  }

  /** Only equal strings are ordered both ways. */
  lemma {:induction false} LexLeAntisymmetric(a: string, b: string)
    requires LexLe(a, b) && LexLe(b, a)
    ensures a == b
    decreases |a|
  {
    if a != [] {
      LexLeAntisymmetric(a[1..], b[1..]);
      assert a == [a[0]] + a[1..] && b == [b[0]] + b[1..];
    }
  }
}
