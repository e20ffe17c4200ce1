/**
 * The JavaScript string operations the core relies on, over `seq<char>`:
 * truthiness of an optional string, `includes`, `startsWith`, `indexOf`
 * and `replace` with a string pattern.
 */
module Strings {
  import opened Wrappers

  /** JavaScript truthiness of a `string | null | undefined`: present and not empty. */
  predicate Truthy(s: Option<string>) {
    s.Some? && s.value != ""
  }

  /** `sub` occurs in `s` starting at index `i`. */
  predicate OccursAt(s: string, sub: string, i: nat) {
    i + |sub| <= |s| && s[i..i + |sub|] == sub
  }

  /** `s.includes(sub)`: some index of `s` starts an occurrence of `sub`. */
  predicate Contains(s: string, sub: string) {
    exists i: nat | i <= |s| :: OccursAt(s, sub, i)
  }

  /** `s.startsWith(p)`. */
  predicate StartsWith(s: string, p: string) {
    |p| <= |s| && s[..|p|] == p
  }

  /** The first index at or after `k` where `sub` occurs in `s`, if any. */
  function IndexOfFrom(s: string, sub: string, k: nat): (r: Option<nat>)
    requires k <= |s|
    ensures r.Some? ==> k <= r.value && OccursAt(s, sub, r.value)
    ensures r.Some? ==> forall j: nat :: k <= j < r.value ==> !OccursAt(s, sub, j)
    ensures r.None? ==> forall j: nat :: k <= j <= |s| ==> !OccursAt(s, sub, j)
    decreases |s| - k
  {
    if OccursAt(s, sub, k) then Some(k)
    else if k == |s| then None
    else IndexOfFrom(s, sub, k + 1)
  }

  /** `s.indexOf(sub)`, with `None` for JavaScript's -1. */
  function IndexOf(s: string, sub: string): (r: Option<nat>)
    ensures r.Some? <==> Contains(s, sub)
    ensures r.Some? ==> OccursAt(s, sub, r.value)
    ensures r.Some? ==> forall j: nat :: j < r.value ==> !OccursAt(s, sub, j)
  {
    IndexOfFrom(s, sub, 0)
  }

  /**
   * `s.replace(pat, rep)` with a string pattern: only the first occurrence
   * is replaced, and `s` comes back unchanged when `pat` does not occur.
   * (`rep` is taken literally; JavaScript's `$` patterns in `rep` are not modelled.)
   */
  function ReplaceFirst(s: string, pat: string, rep: string): (r: string)
    ensures !Contains(s, pat) ==> r == s
    ensures Contains(s, pat) ==> |r| == |s| - |pat| + |rep|
    ensures Contains(s, pat) ==>
      IndexOf(s, pat).Some? && r == s[..IndexOf(s, pat).value] + rep + s[IndexOf(s, pat).value + |pat|..]
  {
    match IndexOf(s, pat)
    case None => s
    case Some(i) => s[..i] + rep + s[i + |pat|..]
  }

  /** A prefix is an occurrence at index 0, so it is the first one. */
  lemma StartsWithIsFirstOccurrence(s: string, p: string)
    requires StartsWith(s, p)
    ensures IndexOf(s, p) == Some(0)
  {
    assert OccursAt(s, p, 0);
  }

  /** Removing a pattern that `s` starts with drops exactly that prefix. */
  lemma ReplacePrefix(s: string, p: string)
    requires StartsWith(s, p)
    ensures ReplaceFirst(s, p, "") == s[|p|..]
  {
    StartsWithIsFirstOccurrence(s, p);
  }

  /**
   * Removing the first occurrence keeps everything before it and everything
   * after it, so later occurrences survive.
   */
  lemma ReplaceFirstKeepsRest(s: string, pat: string, i: nat)
    requires IndexOf(s, pat) == Some(i)
    ensures ReplaceFirst(s, pat, "") == s[..i] + s[i + |pat|..]
    ensures ReplaceFirst(s, pat, "")[i..] == s[i + |pat|..]
  {
  }

  /** Any string built around `d` contains `d`: containment ignores what surrounds it. */
  lemma ContainsInfix(a: string, d: string, b: string)
    ensures Contains(a + d + b, d)
  {
    var s := a + d + b;
    assert s[|a|..|a| + |d|] == d;
    assert OccursAt(s, d, |a|);
  }

  /** Only the empty string occurs in the empty string. */
  lemma EmptyContainsOnlyEmpty(sub: string)
    requires sub != ""
    ensures !Contains("", sub)
  {
  }

  /**
   * `s` cannot contain `sub` when no index close enough to the end to start
   * an occurrence holds the first character of `sub`.
   */
  lemma NotContainsByFirstChar(s: string, sub: string)
    requires sub != ""
    requires forall i: nat :: i + |sub| <= |s| ==> s[i] != sub[0]
    ensures !Contains(s, sub)
  {
    forall i: nat | i <= |s|
      ensures !OccursAt(s, sub, i)
    {
      if i + |sub| <= |s| {
        assert s[i..i + |sub|][0] == s[i] != sub[0];
      }
    }
  }
}
