/**
 * String helpers used by the scraper: `str.join`, a leftmost substring
 * search, ASCII lower-casing, and `Split`, the inverse of `Join` used to
 * state what a joined message lists.
 */
module Strings {
  import opened Wrappers

  /** `pat` occurs in `s` starting at index `j`. */
  predicate OccursAt(s: string, pat: string, j: nat) {
    j + |pat| <= |s| && s[j..j + |pat|] == pat
  }

  /** The leftmost index at or after `from` where `pat` occurs in `s`. */
  function FindFrom(s: string, pat: string, from: nat): (r: Option<nat>)
    decreases |s| - from
    ensures r.Some? ==> from <= r.value && OccursAt(s, pat, r.value)
    ensures r.Some? ==> forall j :: from <= j < r.value ==> !OccursAt(s, pat, j)
    ensures r.None? ==> forall j :: from <= j ==> !OccursAt(s, pat, j)
  {
    if from + |pat| > |s| then None
    else if s[from..from + |pat|] == pat then Some(from)
    else FindFrom(s, pat, from + 1)
  }

  /** Python's `sep.join(parts)`. */
  function Join(parts: seq<string>, sep: string): string {
    if |parts| == 0 then ""
    else if |parts| == 1 then parts[0]
    else parts[0] + sep + Join(parts[1..], sep)
  }

  /** Python's `s.split(sep)`: cut at every leftmost occurrence of `sep`. */
  function Split(s: string, sep: string): seq<string>
    requires |sep| > 0
    decreases |s|
  {
    match FindFrom(s, sep, 0)
    case None => [s]
    case Some(k) => [s[..k]] + Split(s[k + |sep|..], sep)
  }

  /** Python's `str.lower()` restricted to ASCII letters. */
  function Lower(s: string): string {
    seq(|s|, i requires 0 <= i < |s| => if 'A' <= s[i] <= 'Z' then (s[i] as int + 32) as char else s[i])
  }

  /** A string without the separator's first character holds no separator. */
  lemma NotFound(a: string, pat: string)
    requires |pat| > 0 && pat[0] !in a
    ensures FindFrom(a, pat, 0) == None
  {
  }

  /** The leftmost occurrence is the one with no occurrence before it. */
  lemma FindLeftmost(s: string, pat: string, k: nat)
    requires OccursAt(s, pat, k)
    requires forall j :: 0 <= j < k ==> !OccursAt(s, pat, j)
    ensures FindFrom(s, pat, 0) == Some(k)
  {
  }

  /** When `a` holds no separator start and `b` begins with the separator, `|a|` is its first occurrence. */
  lemma BoundaryOccurrence(a: string, pat: string, b: string)
    requires |pat| > 0 && pat[0] !in a
    requires |b| >= |pat| && b[..|pat|] == pat
    ensures OccursAt(a + b, pat, |a|)
    ensures forall j :: 0 <= j < |a| ==> !OccursAt(a + b, pat, j)
  {
  }

  /** The same, stated as the result of the leftmost search. */
  lemma FindAtBoundary(a: string, pat: string, b: string)
    requires |pat| > 0 && pat[0] !in a
    requires |b| >= |pat| && b[..|pat|] == pat
    ensures FindFrom(a + b, pat, 0) == Some(|a|)
  {
    BoundaryOccurrence(a, pat, b);
    FindLeftmost(a + b, pat, |a|);
  }

  /** Splitting a join recovers the parts when no part holds the separator's first character. */
  lemma {:induction false} SplitJoin(parts: seq<string>, sep: string)
    requires |parts| > 0 && |sep| > 0
    requires forall i :: 0 <= i < |parts| ==> sep[0] !in parts[i]
    ensures Split(Join(parts, sep), sep) == parts
  {
    if |parts| == 1 {
      NotFound(parts[0], sep);
    } else {
      var rest := Join(parts[1..], sep);
      var s := parts[0] + sep + rest;
      assert s == parts[0] + (sep + rest);
      assert (sep + rest)[..|sep|] == sep;
      FindAtBoundary(parts[0], sep, sep + rest);
      assert s[..|parts[0]|] == parts[0];
      assert s[|parts[0]| + |sep|..] == rest;
      SplitJoin(parts[1..], sep);
      assert parts == [parts[0]] + parts[1..];
    }
  }
}
