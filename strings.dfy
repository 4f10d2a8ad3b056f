/**
 * The string operations of Python that the stock-entry backend relies on:
 * substring tests (`sub in s`), the two `split` idioms of the unknown-field
 * extraction, `str.lower` restricted to ASCII, and the ordering `<=` on `str`.
 */
module Strings {
  import opened Wrappers

  /** `sub` occurs in `s` starting at index `i`. */
  predicate OccursAt(s: string, sub: string, i: nat) {
    i + |sub| <= |s| && s[i..i + |sub|] == sub
  }

  /** Python's `sub in s`. */
  predicate Contains(s: string, sub: string) {
    exists i: nat :: i <= |s| && OccursAt(s, sub, i)
  }

  /** `i` is the start of the last occurrence of `sub` in `s`. */
  ghost predicate LastOccursAt(s: string, sub: string, i: nat) {
    OccursAt(s, sub, i) && forall j: nat :: OccursAt(s, sub, j) ==> j <= i
  }

  /** The start of the last occurrence of `sub` in `s` that starts before `k`. */
  function LastOccurrenceBefore(s: string, sub: string, k: nat): (r: Option<nat>)
    ensures r.Some? ==> r.value < k && OccursAt(s, sub, r.value)
    ensures forall j: nat :: j < k && OccursAt(s, sub, j) ==> r.Some? && j <= r.value
    decreases k
  {
    if k == 0 then None
    else if OccursAt(s, sub, k - 1) then Some(k - 1)
    else LastOccurrenceBefore(s, sub, k - 1)
  }

  /** The start of the last occurrence of `sub` in `s`, if there is one. */
  function LastOccurrence(s: string, sub: string): (r: Option<nat>)
    ensures r.Some? ==> LastOccursAt(s, sub, r.value)
    ensures r.None? <==> !Contains(s, sub)
  {
    LastOccurrenceBefore(s, sub, |s| + 1)
  }

  /** No proper non-empty prefix of `sep` is also a suffix of it, so occurrences never overlap. */
  predicate NoSelfOverlap(sep: string) {
    forall k :: 0 < k < |sep| ==> sep[..k] != sep[|sep| - k..]
  }

  /**
   * Python's `s.split(sep)[-1]`: what follows the last occurrence of `sep`,
   * or all of `s` when `sep` does not occur. Python splits at the occurrences
   * found scanning left to right without overlap; for a separator without
   * self-overlap (such as "name ") those are all the occurrences, so the last
   * piece starts after the last occurrence.
   */
  function SplitLast(s: string, sep: string): (r: string)
    requires |sep| > 0 && NoSelfOverlap(sep)
    ensures |r| <= |s| && r == s[|s| - |r|..]
    ensures !Contains(s, sep) ==> r == s
    ensures Contains(s, sep) ==> |r| + |sep| <= |s| && LastOccursAt(s, sep, |s| - |r| - |sep|)
    ensures !Contains(r, sep)
  {
    match LastOccurrence(s, sep)
    case None => s
    case Some(i) =>
      var r := s[i + |sep|..];
      forall p: nat
        ensures OccursAt(r, sep, p) ==> OccursAt(s, sep, i + |sep| + p)
      {
        OccursInSuffix(s, sep, i + |sep|, p);
      }
      r
  }

  /** An occurrence in a suffix of `s` is an occurrence in `s`, shifted. */
  lemma OccursInSuffix(s: string, sub: string, start: nat, p: nat)
    requires start <= |s|
    ensures OccursAt(s[start..], sub, p) <==> OccursAt(s, sub, start + p)
  {
  }

  /**
   * Python's `s.split(c)[0]` for a one-character separator: the longest
   * prefix of `s` free of `c`.
   */
  function SplitFirst(s: string, c: char): (r: string)
    ensures |r| <= |s| && r == s[..|r|]
    ensures c !in r
    ensures |r| < |s| ==> s[|r|] == c
  {
    if |s| == 0 || s[0] == c then ""
    else [s[0]] + SplitFirst(s[1..], c)
  }

  /** Python's `str.lower` on one character, for ASCII upper-case letters. */
  function LowerChar(c: char): char {
    if 'A' <= c <= 'Z' then (c as int + 32) as char else c
  }

  /** Python's `str.lower`, lowering ASCII letters only. */
  function Lower(s: string): string {
    seq(|s|, i requires 0 <= i < |s| => LowerChar(s[i]))
  }

  /** Python's `a <= b` on `str`: lexicographic order by code point. */
  predicate LexLe(a: string, b: string) {
    |a| == 0 || (|b| > 0 && (a[0] < b[0] || (a[0] == b[0] && LexLe(a[1..], b[1..]))))
  }

  /** Any two strings are comparable. */
  lemma {:induction false} LexLeTotal(a: string, b: string)
    ensures LexLe(a, b) || LexLe(b, a)
  {
    if |a| > 0 && |b| > 0 && a[0] == b[0] {
      LexLeTotal(a[1..], b[1..]);
    }
  }

  /** The order is transitive. */
  lemma {:induction false} LexLeTransitive(a: string, b: string, c: string)
    requires LexLe(a, b) && LexLe(b, c)
    ensures LexLe(a, c)
  {
    if |a| > 0 && |b| > 0 && |c| > 0 && a[0] == b[0] == c[0] {
      LexLeTransitive(a[1..], b[1..], c[1..]);
    }
  }
}
