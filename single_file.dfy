/**
 * The single-file script's accuracy calculator, which reports each metric
 * as a nested record of matching rows, total rows and accuracy.
 */
module SingleFile {
  import opened Wrappers
  import opened Agreement
  import Analysis

  /** One metric's `matching_rows` / `total_rows` / `accuracy` record. */
  datatype MetricTally = MetricTally(matchingRows: nat, totalRows: nat, accuracy: real)

  /** The result: the total row count and one tally per metric. */
  datatype DetailedResult = DetailedResult(
    totalRows: nat,
    onsetTime: MetricTally,
    timestamp: MetricTally,
    text: MetricTally,
    language: MetricTally,
    speaker: MetricTally)
  {
    function TallyOf(m: Metric): MetricTally
    {
      match m
      case OnsetTime => onsetTime
      case Timestamp => timestamp
      case Text => text
      case Language => language
      case Speaker => speaker
    }
  }

  /** The tally of one metric over a non-empty table. */
  function Tally(rows: seq<Row>, m: Metric): (t: MetricTally)
    requires |rows| > 0
    ensures t.totalRows == |rows| && t.matchingRows <= t.totalRows
    ensures t.accuracy * t.totalRows as real == t.matchingRows as real
    ensures 0.0 <= t.accuracy <= 1.0
  {
    var matching := CountAgreeing(rows, m);
    MetricTally(matching, |rows|, Ratio(matching, |rows|))
  }

  /**
   * No result for an empty table; otherwise every metric's tally shares the
   * top-level row count, its matching rows are the agreeing rows, and its
   * accuracy is their share.
   */
  function CalculateAccuracy(rows: seq<Row>): (r: Option<DetailedResult>)
    ensures r.None? <==> |rows| == 0
    ensures r.Some? ==> r.value.totalRows == |rows|
    ensures r.Some? ==> forall m: Metric :: r.value.TallyOf(m) == Tally(rows, m)
  {
    var total := |rows|;
    if total == 0 then None
    else
      Some(DetailedResult(
        total,
        Tally(rows, OnsetTime),
        Tally(rows, Timestamp),
        Tally(rows, Text),
        Tally(rows, Language),
        Tally(rows, Speaker)))
  }

  /**
   * Every metric's record shares the top-level row count, counts the
   * agreeing rows, and has an accuracy in [0, 1].
   */
  lemma DetailedResultMeaning(rows: seq<Row>, m: Metric)
    requires |rows| > 0
    ensures CalculateAccuracy(rows).Some?
    ensures CalculateAccuracy(rows).value.TallyOf(m).totalRows == CalculateAccuracy(rows).value.totalRows
    ensures CalculateAccuracy(rows).value.TallyOf(m).matchingRows == |AgreeingIndices(rows, m)|
    ensures CalculateAccuracy(rows).value.TallyOf(m).matchingRows <= CalculateAccuracy(rows).value.totalRows
    ensures 0.0 <= CalculateAccuracy(rows).value.TallyOf(m).accuracy <= 1.0
  {
    CountIsAgreeingIndices(rows, m);
  }

  /** The accuracy of each metric is 1 exactly when all rows agree and 0 exactly when none does. */
  lemma AccuracyExtremesOfTally(rows: seq<Row>, m: Metric)
    requires |rows| > 0
    ensures CalculateAccuracy(rows).Some?
    ensures CalculateAccuracy(rows).value.TallyOf(m).accuracy == 1.0 <==>
      forall i :: 0 <= i < |rows| ==> Agrees(rows[i], m)
    ensures CalculateAccuracy(rows).value.TallyOf(m).accuracy == 0.0 <==>
      forall i :: 0 <= i < |rows| ==> !Agrees(rows[i], m)
  {
    AccuracyExtremes(rows, m);
  }

  /** Both scripts' calculators agree: same "no result" cases, same counts, same ratios. */
  lemma AgreesWithBatchCalculator(rows: seq<Row>)
    ensures CalculateAccuracy(rows).None? <==> Analysis.CalculateAccuracy(rows).None?
    ensures CalculateAccuracy(rows).Some? ==>
      var detailed, flat := CalculateAccuracy(rows).value, Analysis.CalculateAccuracy(rows).value;
      detailed.totalRows == flat.totalRows &&
      forall m: Metric ::
        detailed.TallyOf(m).matchingRows == flat.matchingRows.Of(m) &&
        detailed.TallyOf(m).accuracy == flat.Accuracy(m)
  {
  }
}
