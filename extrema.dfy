/** First-occurrence argmax / argmin over the positions a mask keeps.
    This is pandas' `idxmax` / `idxmin` applied to a boolean-filtered frame
    (`between_time` keeps a subset of rows in their original order). */
module Extrema {

  datatype Extremum = Largest | Smallest

  /** `a` is strictly preferable to `b` for the extremum sought. */
  predicate Better(e: Extremum, a: real, b: real) {
    match e
    case Largest => a > b
    case Smallest => a < b
  }

  /** A mask that keeps every one of `n` positions. */
  function KeepAll(n: nat): seq<bool> {
    seq(n, _ => true)
  }

  /** `k` is a kept position that no kept position beats, and that strictly beats
      every kept position before it: the earliest optimum. */
  predicate IsFirstBest(e: Extremum, xs: seq<real>, keep: seq<bool>, k: nat)
    requires |keep| == |xs|
  {
    && k < |xs|
    && keep[k]
    && (forall i :: 0 <= i < |xs| && keep[i] ==> !Better(e, xs[i], xs[k]))
    && (forall i :: 0 <= i < k && keep[i] ==> Better(e, xs[k], xs[i]))
  }

  /** The earliest optimal kept position; defined when the mask keeps something. */
  function FirstBest(e: Extremum, xs: seq<real>, keep: seq<bool>): (k: nat)
    requires |keep| == |xs| && true in keep
    ensures IsFirstBest(e, xs, keep, k)
    decreases |xs|
  {
    var n := |xs| - 1;
    if true !in keep[..n] then
      assert forall j :: 0 <= j < n ==> keep[..n][j] == keep[j];
      n
    else
      var k := FirstBest(e, xs[..n], keep[..n]);
      assert forall i :: 0 <= i < n ==> xs[..n][i] == xs[i] && keep[..n][i] == keep[i];
      if keep[n] && Better(e, xs[n], xs[k]) then n else k
  }

  /** The earliest optimum is unique, so `FirstBest` is the only answer pandas could give. */
  lemma FirstBestIsUnique(e: Extremum, xs: seq<real>, keep: seq<bool>, k: nat)
    requires |keep| == |xs| && IsFirstBest(e, xs, keep, k)
    ensures true in keep && FirstBest(e, xs, keep) == k
  {
    assert keep[k];
  }
}
