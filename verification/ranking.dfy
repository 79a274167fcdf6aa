/**
 Ranking of agents by one real-valued key, as a stable descending sort sees it.

 A stable sort in descending order puts first the earliest position whose key is
 maximal, and second the earliest maximal position among the remaining ones. Only
 those two places of the ranking are ever read, so this module characterises them
 directly instead of building the whole sorted order.
 */
module Ranking {

  datatype Option<T> = None | Some(value: T)

  /** `i` holds a maximal key among the positions of `xs` other than the
      skipped one, if any. */
  ghost predicate IsMaxExcept(xs: seq<real>, skip: Option<nat>, i: int)
  {
    && 0 <= i < |xs|
    && Some(i) != skip
    && forall k :: 0 <= k < |xs| && Some(k) != skip ==> xs[k] <= xs[i]
  }

  /** `i` is the earliest such position: every earlier candidate is strictly smaller. */
  ghost predicate IsFirstMaxExcept(xs: seq<real>, skip: Option<nat>, i: int)
  {
    && IsMaxExcept(xs, skip, i)
    && forall k :: 0 <= k < i && Some(k) != skip ==> xs[k] < xs[i]
  }

  /** The earliest position among the first `n` of `xs`, other than the skipped
      one, that holds a maximal key; None when there is no candidate position. */
  function Best(xs: seq<real>, skip: Option<nat>, n: nat): (r: Option<nat>)
    requires n <= |xs|
    ensures r.None? <==> n == 0 || (n == 1 && skip == Some(0))
    ensures r.Some? ==> r.value < n && r != skip
    ensures r.Some? ==> forall k :: 0 <= k < n && Some(k) != skip ==> xs[k] <= xs[r.value]
    ensures r.Some? ==> forall k :: 0 <= k < r.value && Some(k) != skip ==> xs[k] < xs[r.value]
    decreases n
  {
    if n == 0 then None
    else
      var b := Best(xs, skip, n - 1);
      if Some(n - 1) == skip then b
      else if b.None? || xs[n - 1] > xs[b.value] then Some(n - 1)
      else b
  }

  /** Position 0 of the stable descending order. */
  function First(xs: seq<real>): (i: nat)
    requires |xs| >= 1
    ensures IsFirstMaxExcept(xs, None, i)
  {
    Best(xs, None, |xs|).value
  }

  /** Position 1 of the stable descending order. */
  function Second(xs: seq<real>): (j: nat)
    requires |xs| >= 2
    ensures IsFirstMaxExcept(xs, Some(First(xs)), j)
    ensures j != First(xs)
    ensures xs[j] <= xs[First(xs)]
  {
    assert 0 != First(xs) || 1 != First(xs);
    Best(xs, Some(First(xs)), |xs|).value
  }

  /** The first two places are determined uniquely by their characterisation:
      any position meeting it is the one `First` and `Second` return. */
  lemma TopTwoUnique(xs: seq<real>, i: nat, j: nat)
    requires |xs| >= 2
    requires IsFirstMaxExcept(xs, None, i)
    requires IsFirstMaxExcept(xs, Some(i), j)
    ensures i == First(xs) && j == Second(xs)
  {
  }

  /** With all keys equal the ranking keeps the original order. */
  lemma TiesKeepOrder(xs: seq<real>)
    requires |xs| >= 2
    requires forall k :: 0 <= k < |xs| ==> xs[k] == xs[0]
    ensures First(xs) == 0 && Second(xs) == 1
  {
    assert IsFirstMaxExcept(xs, None, 0);
    assert IsFirstMaxExcept(xs, Some(0), 1);
    TopTwoUnique(xs, 0, 1);
  }
}
