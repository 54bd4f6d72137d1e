/**
 * Threshold banding: an `if v < e1 ... elif v < e2 ...` chain over ascending edges puts `v` in
 * the band numbered by how many edges lie at or below it. That count is the reference the
 * if-chains are proved against.
 */
module Bands {

  /** The number of edges `e` with `e <= v`. */
  function CountAtMost(edges: seq<real>, v: real): (n: nat)
    ensures n <= |edges|
  {
    if edges == [] then 0
    else CountAtMost(edges[..|edges| - 1], v) + (if edges[|edges| - 1] <= v then 1 else 0)
  }

  predicate Ascending(edges: seq<real>) {
    forall i, j :: 0 <= i < j < |edges| ==> edges[i] < edges[j]
  }

  /** A larger value never falls in a lower band. */
  lemma {:induction false} CountAtMostMonotone(edges: seq<real>, v: real, w: real)
    requires v <= w
    ensures CountAtMost(edges, v) <= CountAtMost(edges, w)
  {
    if edges != [] {
      CountAtMostMonotone(edges[..|edges| - 1], v, w);
    }
  }

  /** Over ascending edges, `v` is in band `k` exactly when `edges[k-1] <= v < edges[k]`. */
  lemma {:induction false} CountAtMostBand(edges: seq<real>, v: real, k: nat)
    requires Ascending(edges) && k <= |edges|
    requires k == 0 || edges[k - 1] <= v
    requires k == |edges| || v < edges[k]
    ensures CountAtMost(edges, v) == k
  {
    if edges != [] {
      var init := edges[..|edges| - 1];
      var last := edges[|edges| - 1];
      if k == |edges| {
        if k - 1 > 0 {
          assert init[k - 2] == edges[k - 2] < edges[k - 1];
        }
        CountAtMostBand(init, v, k - 1);
      } else {
        assert edges[k] <= last;
        if k < |init| {
          assert init[k] == edges[k];
        }
        if k > 0 {
          assert init[k - 1] == edges[k - 1];
        }
        CountAtMostBand(init, v, k);
      }
    }
  }
}
