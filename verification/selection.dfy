/** Best-of-N selection with the strict-greater rule shared by gain
    computation and re-evaluation: a later score replaces the running best
    only when it is strictly larger, so among equal maxima the lowest index
    wins. */
module Selection {
  import opened Wrappers

  /** `k` is the first maximum of the eligible scores among the first `n`. */
  predicate FirstMaxUpTo(s: seq<real>, elig: seq<bool>, n: int, k: int)
    requires |elig| == |s|
  {
    && 0 <= k < n <= |s|
    && elig[k]
    && (forall j :: 0 <= j < n && elig[j] ==> s[j] <= s[k])
    && (forall j :: 0 <= j < k && elig[j] ==> s[j] < s[k])
  }

  /** `k` is the first maximum of the eligible scores. */
  predicate FirstMaxAmong(s: seq<real>, elig: seq<bool>, k: int)
    requires |elig| == |s|
  {
    FirstMaxUpTo(s, elig, |s|, k)
  }

  predicate NoneEligible(elig: seq<bool>) {
    forall j :: 0 <= j < |elig| ==> !elig[j]
  }

  function AllEligible(n: nat): (r: seq<bool>)
    ensures |r| == n
    ensures forall j :: 0 <= j < n ==> r[j]
  {
    seq(n, j => true)
  }

  /** The selection loop from index `i` on, with `best` the index kept so
      far (None before any eligible index was seen). */
  function Scan(s: seq<real>, elig: seq<bool>, i: nat, best: Option<nat>): (r: Option<nat>)
    requires |elig| == |s| && i <= |s|
    requires best.None? ==> forall j :: 0 <= j < i ==> !elig[j]
    requires best.Some? ==> FirstMaxUpTo(s, elig, i, best.value)
    ensures r.None? <==> NoneEligible(elig)
    ensures r.Some? ==> FirstMaxAmong(s, elig, r.value)
    decreases |s| - i
  {
    if i == |s| then best
    else if elig[i] && (best.None? || s[i] > s[best.value]) then Scan(s, elig, i + 1, Some(i))
    else Scan(s, elig, i + 1, best)
  }

  /** Selection is deterministic: there is only one first maximum. */
  lemma FirstMaxUnique(s: seq<real>, elig: seq<bool>, k: int, k': int)
    requires |elig| == |s|
    requires FirstMaxAmong(s, elig, k) && FirstMaxAmong(s, elig, k')
    ensures k == k'
  {
  }

  /** Narrowing the eligible set keeps the first maximum when it stays eligible. */
  lemma FirstMaxNarrow(s: seq<real>, wide: seq<bool>, narrow: seq<bool>, k: int)
    requires |wide| == |s| && |narrow| == |s|
    requires forall j :: 0 <= j < |s| && narrow[j] ==> wide[j]
    requires FirstMaxAmong(s, wide, k) && 0 <= k < |s| && narrow[k]
    ensures FirstMaxAmong(s, narrow, k)
  {
  }

  /** When exactly one index is eligible, it is selected whatever its score. */
  lemma SoleEligibleWins(s: seq<real>, elig: seq<bool>, k: int, w: int)
    requires |elig| == |s| && 0 <= k < |s| && elig[k]
    requires forall j :: 0 <= j < |s| && j != k ==> !elig[j]
    requires FirstMaxAmong(s, elig, w)
    ensures w == k
  {
  }
}
