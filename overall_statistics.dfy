/**
 * The aggregation stage of the batch script: for each `<metric>_Accuracy`
 * column of the kept results, its mean, minimum and maximum across files.
 */
module OverallStatistics {
  import opened Agreement
  import opened Analysis

  /** Descriptive statistics of one metric across files. */
  datatype Summary = Summary(mean: real, min: real, max: real)

  function Sum(values: seq<real>): real
  {
    if values == [] then 0.0 else Sum(values[..|values| - 1]) + values[|values| - 1]
  }

  /** The arithmetic mean. */
  function Mean(values: seq<real>): real
    requires |values| > 0
  {
    Sum(values) / |values| as real
  }

  /** The smallest value. */
  function Min(values: seq<real>): (lo: real)
    requires |values| > 0
    ensures lo in values
    ensures forall i :: 0 <= i < |values| ==> lo <= values[i]
  {
    var n := |values| - 1;
    if n == 0 then values[0]
    else
      var rest := Min(values[..n]);
      if values[n] < rest then values[n] else rest
  }

  /** The largest value. */
  function Max(values: seq<real>): (hi: real)
    requires |values| > 0
    ensures hi in values
    ensures forall i :: 0 <= i < |values| ==> values[i] <= hi
  {
    var n := |values| - 1;
    if n == 0 then values[0]
    else
      var rest := Max(values[..n]);
      if rest < values[n] then values[n] else rest
  }

  /** A lower bound on every value bounds the sum by count times that bound. */
  lemma {:induction false} SumAtLeast(values: seq<real>, lo: real)
    requires forall i :: 0 <= i < |values| ==> lo <= values[i]
    ensures |values| as real * lo <= Sum(values)
  {
    if values != [] {
      var n := |values| - 1;
      assert forall i :: 0 <= i < n ==> values[..n][i] == values[i];
      SumAtLeast(values[..n], lo);
    }
  }

  /** An upper bound on every value bounds the sum by count times that bound. */
  lemma {:induction false} SumAtMost(values: seq<real>, hi: real)
    requires forall i :: 0 <= i < |values| ==> values[i] <= hi
    ensures Sum(values) <= |values| as real * hi
  {
    if values != [] {
      var n := |values| - 1;
      assert forall i :: 0 <= i < n ==> values[..n][i] == values[i];
      SumAtMost(values[..n], hi);
    }
  }

  /** A bound on every value bounds the mean. */
  lemma MeanWithin(values: seq<real>, lo: real, hi: real)
    requires |values| > 0
    requires forall i :: 0 <= i < |values| ==> lo <= values[i] <= hi
    ensures lo <= Mean(values) <= hi
  {
    SumAtLeast(values, lo);
    SumAtMost(values, hi);
    DivideBounds(Sum(values), |values| as real, lo, hi);
  }

  /** Dividing by a positive count keeps bounds scaled by that count. */
  lemma DivideBounds(total: real, n: real, lo: real, hi: real)
    requires n > 0.0 && n * lo <= total <= n * hi
    ensures lo <= total / n <= hi
  {
  }

  /** The mean lies between the minimum and the maximum. */
  lemma MeanBetweenMinAndMax(values: seq<real>)
    requires |values| > 0
    ensures Min(values) <= Mean(values) <= Max(values)
  {
    MeanWithin(values, Min(values), Max(values));
  }

  /** Mean, Min and Max of one column. */
  function Summarize(values: seq<real>): (s: Summary)
    requires |values| > 0
    ensures s.mean == Mean(values)
    ensures s.min in values && s.max in values
    ensures s.min <= s.mean <= s.max
    ensures forall i :: 0 <= i < |values| ==> s.min <= values[i] <= s.max
  {
    MeanBetweenMinAndMax(values);
    Summary(Mean(values), Min(values), Max(values))
  }

  /** The `<metric>_Accuracy` column of the results table, one value per kept file. */
  function Column(results: seq<TaggedResult>, m: Metric): (values: seq<real>)
    ensures |values| == |results|
    ensures forall i :: 0 <= i < |results| ==> values[i] == results[i].result.Accuracy(m)
  {
    seq(|results|, i requires 0 <= i < |results| => results[i].result.Accuracy(m))
  }

  /**
   * The statistics loop: one entry per accuracy column, none when there are
   * no results (the results table then has no columns at all).
   */
  method CalculateOverallStatistics(allResults: seq<TaggedResult>) returns (stats: map<Metric, Summary>)
    ensures allResults == [] ==> stats == map[]
    ensures allResults != [] ==> stats.Keys == set m | m in AllMetrics
    ensures forall m :: m in stats ==> |allResults| > 0 && stats[m] == Summarize(Column(allResults, m))
  {
    var accuracyCols := if allResults == [] then [] else AllMetrics;
    stats := map[];
    for k := 0 to |accuracyCols|
      invariant stats.Keys == set j | 0 <= j < k :: accuracyCols[j]
      invariant forall m :: m in stats ==> |allResults| > 0 && stats[m] == Summarize(Column(allResults, m))
    {
      var metric := accuracyCols[k];
      var values := Column(allResults, metric);
      stats := stats[metric := Summary(Mean(values), Min(values), Max(values))];
    }
  }

  /** Over the results of a batch, every statistic of every metric lies in [0, 1]. */
  lemma BatchStatisticsInUnitInterval(files: seq<SourceFile>, m: Metric)
    requires |Kept(files)| > 0
    ensures 0.0 <= Summarize(Column(Kept(files), m)).min
    ensures Summarize(Column(Kept(files), m)).max <= 1.0
    ensures 0.0 <= Summarize(Column(Kept(files), m)).mean <= 1.0
  {
    var values := Column(Kept(files), m);
    forall j | 0 <= j < |values|
      ensures 0.0 <= values[j] <= 1.0
    {
      KeptEntriesFromSuccesses(files, j);
    }
    var s := Summarize(values);
    var lo :| 0 <= lo < |values| && values[lo] == s.min;
    var hi :| 0 <= hi < |values| && values[hi] == s.max;
  }

  /** Ratios 1, 1/2 and 3/4 have mean 3/4, minimum 1/2 and maximum 1. */
  lemma SummaryExample()
    ensures Summarize([1.0, 0.5, 0.75]) == Summary(0.75, 0.5, 1.0)
  {
    var values := [1.0, 0.5, 0.75];
    assert values[..2] == [1.0, 0.5] && values[..2][..1] == [1.0] && [1.0][..0] == [];
    assert Sum([1.0]) == 1.0;
    assert Sum(values) == 2.25;
    assert Min([1.0, 0.5]) == 0.5 && Max([1.0, 0.5]) == 1.0;
    assert Min(values) == 0.5 && Max(values) == 1.0;
  }
}
