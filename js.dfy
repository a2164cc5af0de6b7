/**
 * The few pieces of JavaScript semantics the screens rely on: truthiness of a
 * string that may be null or undefined, `startsWith`, the first-match string
 * `replace` with an empty replacement, and the clamping `Array.prototype.slice`
 * and `reverse`.
 */
module Js {

  /** A value that may be `null` or `undefined` (both are `None` here). */
  datatype Option<+T> = None | Some(value: T)

  /** JavaScript truthiness of a nullable string: present and not empty. */
  predicate Truthy(s: Option<string>) {
    s.Some? && s.value != ""
  }

  /** `s || fallback` for a nullable string. */
  function OrElse(s: Option<string>, fallback: string): (r: string)
    ensures Truthy(s) ==> r == s.value
    ensures !Truthy(s) ==> r == fallback
  {
    if s.Some? && s.value != "" then s.value else fallback
  }

  /** `s.startsWith(prefix)`. */
  predicate StartsWith(s: string, prefix: string) {
    |prefix| <= |s| && s[..|prefix|] == prefix
  }

  /** `pat` occurs in `s` starting at position `k`. */
  predicate OccursAt(s: string, pat: string, k: nat) {
    k + |pat| <= |s| && s[k..k + |pat|] == pat
  }

  predicate Contains(s: string, pat: string) {
    exists k: nat :: k <= |s| && OccursAt(s, pat, k)
  }

  /** `k` is the leftmost position at which `pat` occurs in `s`. */
  predicate FirstOccurrence(s: string, pat: string, k: nat) {
    OccursAt(s, pat, k) && forall j: nat :: j < k ==> !OccursAt(s, pat, j)
  }

  /** `s.indexOf(pat, from)`, with `None` for -1. */
  function IndexFrom(s: string, pat: string, from: nat): (r: Option<nat>)
    decreases |s| - from
    ensures r.Some? ==> from <= r.value && OccursAt(s, pat, r.value)
    ensures r.Some? ==> forall j: nat :: from <= j < r.value ==> !OccursAt(s, pat, j)
    ensures r.None? ==> forall j: nat :: from <= j ==> !OccursAt(s, pat, j)
  {
    if from + |pat| > |s| then None
    else if s[from..from + |pat|] == pat then Some(from)
    else IndexFrom(s, pat, from + 1)
  }

  /** `s.indexOf(pat)`: the leftmost occurrence, or `None` when there is none. */
  function IndexOf(s: string, pat: string): (r: Option<nat>)
    ensures r.Some? <==> Contains(s, pat)
    ensures r.Some? ==> FirstOccurrence(s, pat, r.value)
  {
    var r := IndexFrom(s, pat, 0);
    assert r.Some? ==> OccursAt(s, pat, r.value);
    r
  }

  /**
   * `s.replace(pat, '')` with a string pattern: only the leftmost occurrence
   * is cut out; without one, `s` is returned as it is. The replacement is
   * empty, so there are no `$` patterns to expand.
   */
  function RemoveFirst(s: string, pat: string): (r: string)
    ensures !Contains(s, pat) ==> r == s
    ensures Contains(s, pat) ==> |r| == |s| - |pat|
    ensures Contains(s, pat) ==>
      exists k: nat :: FirstOccurrence(s, pat, k) && r == s[..k] + s[k + |pat|..]
  {
    match IndexOf(s, pat)
    case None => s
    case Some(k) => s[..k] + s[k + |pat|..]
  }

  /**
   * `a.slice(from, to)` for non-negative bounds: both bounds are clamped to
   * the length, and an empty array results when `to` is not past `from`.
   */
  function Slice<T>(a: seq<T>, from: nat, to: nat): (r: seq<T>)
    ensures from <= to ==> |r| == (if to <= |a| then to else |a|) - (if from <= |a| then from else |a|)
    ensures to <= from ==> r == []
    ensures forall k :: 0 <= k < |r| ==> from + k < |a| && r[k] == a[from + k]
  {
    var lo := if from <= |a| then from else |a|;
    var hi := if to <= |a| then to else |a|;
    if lo < hi then a[lo..hi] else []
  }

  /** `a.reverse()`, on a copy. */
  function Reverse<T>(a: seq<T>): (r: seq<T>)
    ensures |r| == |a|
    ensures forall k :: 0 <= k < |a| ==> r[k] == a[|a| - 1 - k]
  {
    if a == [] then [] else Reverse(a[1..]) + [a[0]]
  }
}
