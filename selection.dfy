/**
 * `M.topk(n_top, sorted=False)[1]`: the positions of the `n_top` largest entries of a
 * row. The tensor library leaves the order of the result and the choice among equal
 * entries unspecified; this model picks the largest remaining entry each time and, among
 * equal entries, the lowest position.
 */
module Selection {
  import opened Common
  import opened Tensors
  import opened Scatter

  /** The largest entry among positions `0..n-1` that are not in `taken`, lowest position on ties. */
  function Best(m: Vec, taken: seq<nat>, n: nat): (best: Option<nat>)
    requires n <= |m|
    ensures best.None? ==> forall j: nat :: j < n ==> j in taken
    ensures best.Some? ==> best.value < n && best.value !in taken
    ensures best.Some? ==> forall j: nat :: j < n && j !in taken ==> m[j] <= m[best.value]
    ensures best.Some? ==> forall j: nat :: j < best.value && j !in taken ==> m[j] < m[best.value]
  {
    if n == 0 then None
    else
      var b := Best(m, taken, n - 1);
      if n - 1 in taken then b
      else if b.None? || m[n - 1] > m[b.value] then Some(n - 1)
      else b
  }

  /**
   * The positions of the `k` largest entries of `m`: `k` distinct positions of `m`, and
   * every selected entry is at least every unselected one.
   */
  function TopK(m: Vec, k: nat): (top: seq<nat>)
    requires k <= |m|
    ensures |top| == k && Distinct(top) && InRange(top, |m|)
    ensures forall r: nat, j: nat :: r < k && j < |m| && j !in top ==> m[j] <= m[top[r]]
  {
    if k == 0 then []
    else
      var prev := TopK(m, k - 1);
      Pigeonhole(prev, |m|);
      var b := Best(m, prev, |m|);
      prev + [b.value]
  }

  /** Asking for as many positions as there are entries selects every position. */
  lemma TopKSelectsAll(m: Vec)
    ensures forall q :: 0 <= q < |m| ==> q in TopK(m, |m|)
  {
    Pigeonhole(TopK(m, |m|), |m|);
  }
}
