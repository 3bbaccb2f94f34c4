/** The 95th percentile of the service-level report: the nearest rank. */
module Percentile {
  import opened Sorting

  predicate AtMost(a: real, b: real) {
    a <= b
  }

  /** The least integer not below 0.95 * n, less one. */
  function RankIndex(n: nat): int {
    -((-19 * n) / 20) - 1
  }

  function Percentile95(values: seq<real>): real {
    if values == [] then 0.0
    else
      var sorted := SortBy(AtMost, values);
      var index := if RankIndex(|values|) < 0 then 0 else RankIndex(|values|);
      if index < |sorted| then sorted[index] else 0.0
  }

  lemma RankIsNinetyFivePercent(n: nat)
    requires n > 0
    ensures 0 <= RankIndex(n) < n && 20 * RankIndex(n) < 19 * n <= 20 * (RankIndex(n) + 1)
  {
  }

  /** Around position `k` of a sorted sequence. */
  lemma CountsAround(sorted: seq<real>, k: nat)
    requires SortedBy(AtMost, sorted) && k < |sorted|
    ensures CountIf(x => x <= sorted[k], sorted) >= k + 1
    ensures CountIf(x => x < sorted[k], sorted) <= k
  {
    var r := sorted[k];
    assert forall i :: 0 <= i < k ==> AtMost(sorted[i], r);
    assert forall i :: k < i < |sorted| ==> AtMost(r, sorted[i]);
    CountOfPrefix(x => x <= r, sorted, k + 1);
    CountWithinPrefix(x => x < r, sorted, k);
  }

  /** The result is one of the values; at least 95% of them are at most it, and fewer than
      95% are below it. */
  lemma NearestRank(values: seq<real>)
    ensures values == [] ==> Percentile95(values) == 0.0
    ensures values != [] ==>
            var r := Percentile95(values);
            && r in values
            && 20 * CountIf(x => x <= r, values) >= 19 * |values|
            && 20 * CountIf(x => x < r, values) < 19 * |values|
  {
    if values == [] { return; }
    var sorted := SortBy(AtMost, values);
    SortBySorts(AtMost, values);
    SortByPermutes(AtMost, values);
    assert |multiset(sorted)| == |sorted| && |multiset(values)| == |values|;
    var k := RankIndex(|values|);
    RankIsNinetyFivePercent(|values|);
    CountsAround(sorted, k);
    var r := sorted[k];
    assert r in multiset(sorted);
    CountIfOfBag(x => x <= r, sorted, values);
    CountIfOfBag(x => x < r, sorted, values);
  }
}
