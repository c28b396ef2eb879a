/**
 * Class-break extraction, `getClassBreaks` in js/main.js: collect each census
 * tract's cancer rate, let `ss.ckmeans(values, 5)` cluster them, and turn each
 * cluster into the pair `[first, last]`. The clustering library is not part
 * of this model: its output is an input here, constrained by `IsCkmeansOf`.
 */
module ClassBreaks {
  import opened Wrappers
  import opened Classification

  /** A census tract, reduced to the attribute the classifier reads (`canrate`). */
  datatype Tract = Tract(canrate: real)

  /** The tracts' cancer rates, in layer order. */
  function CanRates(tracts: seq<Tract>): seq<real>
  {
    seq(|tracts|, i requires 0 <= i < |tracts| => tracts[i].canrate)
  }

  ghost predicate Sorted(s: seq<real>)
  {
    forall i, j :: 0 <= i <= j < |s| ==> s[i] <= s[j]
  }

  function Last(s: seq<real>): real
    requires |s| > 0
  {
    s[|s| - 1]
  }

  /** The clusters laid end to end. */
  function Flatten(clusters: seq<seq<real>>): seq<real>
  {
    if |clusters| == 0 then [] else Flatten(clusters[..|clusters| - 1]) + clusters[|clusters| - 1]
  }

  /** Non-empty, each sorted, and ascending from one cluster to the next (ties may be split). */
  ghost predicate AscendingClusters(clusters: seq<seq<real>>)
  {
    && (forall i :: 0 <= i < |clusters| ==> |clusters[i]| > 0 && Sorted(clusters[i]))
    && (forall i :: 0 < i < |clusters| ==> Last(clusters[i - 1]) <= clusters[i][0])
  }

  /**
   * What this model relies on from `ss.ckmeans(values, 5)`: at most five
   * (five, or one when all values are equal) ascending clusters that together
   * hold exactly the given values.
   */
  ghost predicate IsCkmeansOf(values: seq<real>, clusters: seq<seq<real>>)
  {
    && 1 <= |clusters| <= Classes
    && AscendingClusters(clusters)
    && multiset(Flatten(clusters)) == multiset(values)
  }

  /** The break of one cluster: `[cluster[0], cluster.pop()]`. */
  function BreakOf(cluster: seq<real>): Break
    requires |cluster| > 0
  {
    Break(cluster[0], Last(cluster))
  }

  /** `clusters.map(...)`: one break per cluster, in cluster order. */
  function Breaks(clusters: seq<seq<real>>): seq<Break>
    requires forall i :: 0 <= i < |clusters| ==> |clusters[i]| > 0
  {
    seq(|clusters|, i requires 0 <= i < |clusters| => BreakOf(clusters[i]))
  }

  /** The `eachLayer` loop that pushes every tract's `canrate` onto `values`. */
  method CollectRates(tracts: seq<Tract>) returns (values: seq<real>)
    ensures |values| == |tracts|
    ensures forall i :: 0 <= i < |tracts| ==> values[i] == tracts[i].canrate
    ensures values == CanRates(tracts)
  {
    values := [];
    for i := 0 to |tracts|
      invariant |values| == i
      invariant forall k :: 0 <= k < i ==> values[k] == tracts[k].canrate
    {
      values := values + [tracts[i].canrate];
    }
  }

  /**
   * The `map` over the clusters: one `[low, high]` per cluster, in order,
   * `low` its first and `high` its last element; for ascending clusters every
   * break is a non-empty range and each starts at or above the previous one's end.
   */
  method BreaksOf(clusters: seq<seq<real>>) returns (breaks: seq<Break>)
    requires forall i :: 0 <= i < |clusters| ==> |clusters[i]| > 0
    ensures |breaks| == |clusters|
    ensures forall i :: 0 <= i < |clusters| ==>
      breaks[i].low == clusters[i][0] && breaks[i].high == clusters[i][|clusters[i]| - 1]
    ensures breaks == Breaks(clusters)
    ensures AscendingClusters(clusters) ==> WellFormed(breaks)
    ensures AscendingClusters(clusters) ==> Ascending(breaks)
  {
    breaks := [];
    for i := 0 to |clusters|
      invariant |breaks| == i
      invariant forall k :: 0 <= k < i ==> breaks[k] == BreakOf(clusters[k])
    {
      breaks := breaks + [BreakOf(clusters[i])];
    }
  }

  /**
   * `getClassBreaks()`, with `clusters` standing for what `ss.ckmeans` returns
   * for the collected rates: one break per cluster, each a non-empty range,
   * ascending, and together spanning every tract's rate.
   */
  method GetClassBreaks(tracts: seq<Tract>, clusters: seq<seq<real>>) returns (breaks: seq<Break>)
    requires IsCkmeansOf(CanRates(tracts), clusters)
    ensures breaks == Breaks(clusters)
    ensures 1 <= |breaks| <= Classes
    ensures WellFormed(breaks)
    ensures Ascending(breaks)
    ensures forall k :: 0 <= k < |tracts| ==>
      breaks[0].low <= tracts[k].canrate <= breaks[|breaks| - 1].high
  {
    var values := CollectRates(tracts);
    // `clusters` stands for `ss.ckmeans(values, 5)`
    assert IsCkmeansOf(values, clusters);
    breaks := BreaksOf(clusters);
    forall k | 0 <= k < |tracts|
      ensures breaks[0].low <= tracts[k].canrate <= breaks[|breaks| - 1].high
    {
      RateWithinBreaks(tracts, clusters, k);
    }
  }

  /** Every element of the concatenation comes from some cluster. */
  lemma {:induction false} InFlatten(clusters: seq<seq<real>>, v: real)
    requires v in Flatten(clusters)
    ensures exists i, p :: 0 <= i < |clusters| && 0 <= p < |clusters[i]| && clusters[i][p] == v
  {
    var n := |clusters|;
    if v in clusters[n - 1] {
      var p :| 0 <= p < |clusters[n - 1]| && clusters[n - 1][p] == v;
      assert clusters[n - 1][p] == v;
    } else {
      var front := clusters[..n - 1];
      InFlatten(front, v);
      var i, p :| 0 <= i < |front| && 0 <= p < |front[i]| && front[i][p] == v;
      assert clusters[i][p] == v;
    }
  }

  /** Ascending clusters: the first element of cluster j is at most the last of any later cluster. */
  lemma {:induction false} ClusterBoundsAscend(clusters: seq<seq<real>>, j: nat, i: nat)
    requires AscendingClusters(clusters)
    requires j <= i < |clusters|
    ensures clusters[j][0] <= clusters[i][0]
    ensures Last(clusters[j]) <= Last(clusters[i])
    decreases i - j
  {
    if j < i {
      ClusterBoundsAscend(clusters, j + 1, i);
      assert clusters[j][0] <= Last(clusters[j]) <= clusters[j + 1][0];
      assert Last(clusters[j]) <= clusters[j + 1][0] <= Last(clusters[j + 1]);
    }
  }

  /** Each tract's rate lies inside the range of its own cluster's break. */
  lemma RateInSomeBreak(tracts: seq<Tract>, clusters: seq<seq<real>>, k: nat)
    returns (i: nat)
    requires IsCkmeansOf(CanRates(tracts), clusters)
    requires k < |tracts|
    ensures i < |clusters|
    ensures tracts[k].canrate in clusters[i]
    ensures Breaks(clusters)[i].low <= tracts[k].canrate <= Breaks(clusters)[i].high
  {
    var v := tracts[k].canrate;
    assert CanRates(tracts)[k] == v;
    assert v in multiset(Flatten(clusters));
    InFlatten(clusters, v);
    var p: nat;
    i, p :| 0 <= i < |clusters| && 0 <= p < |clusters[i]| && clusters[i][p] == v;
  }

  /** Every tract's rate lies between the first break's low and the last break's high. */
  lemma RateWithinBreaks(tracts: seq<Tract>, clusters: seq<seq<real>>, k: nat)
    requires IsCkmeansOf(CanRates(tracts), clusters)
    requires k < |tracts|
    ensures Breaks(clusters)[0].low <= tracts[k].canrate <= Breaks(clusters)[|clusters| - 1].high
  {
    var i := RateInSomeBreak(tracts, clusters, k);
    ClusterBoundsAscend(clusters, 0, i);
    ClusterBoundsAscend(clusters, i, |clusters| - 1);
  }

  /**
   * The fill colour `drawCensusTracts` gives a tract, `getColor(canrate,
   * breaks)`, is always a palette colour (never undefined, never a TypeError),
   * and it is the colour of a class whose legend range contains the tract's rate.
   */
  lemma TractColourMatchesLegendRange(tracts: seq<Tract>, clusters: seq<seq<real>>, k: nat)
    requires IsCkmeansOf(CanRates(tracts), clusters)
    requires k < |tracts|
    ensures var breaks := Breaks(clusters);
      exists j :: 0 <= j < |breaks| && j < Classes
        && GetColor(tracts[k].canrate, breaks) == Ok(Some(Palette[j]))
        && breaks[j].low <= tracts[k].canrate <= breaks[j].high
  {
    var breaks := Breaks(clusters);
    var v := tracts[k].canrate;
    var i := RateInSomeBreak(tracts, clusters, k);
    ValueInRangeGetsClass(v, breaks, i);
    var j := ClassOf(v, breaks).value.value;
    assert FirstMatch(v, breaks, j);
    if j < i {
      // v <= high(j) <= low(j+1) <= ... <= low(i) <= v, so v is high(j) and high(j) >= low(j).
      ClusterBoundsAscend(clusters, j + 1, i);
      assert Last(clusters[j]) <= clusters[j + 1][0];
      assert clusters[j][0] <= Last(clusters[j]);
    }
    assert GetColor(v, breaks) == Ok(Some(Palette[j]));
  }
}
