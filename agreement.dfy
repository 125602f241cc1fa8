/**
 * Comparison rows and the per-metric agreement tally shared by both
 * accuracy calculators: a row "agrees" on a metric when its difference
 * field for that metric is the no-difference value.
 */
module Agreement {

  /** One comparison row, with the five difference columns the calculators read. */
  datatype Row = Row(
    onsetDiff: string,      // Absolute_onset_time_difference
    timestampDiff: string,  // TimeStamp_difference
    textDiff: bool,         // text_difference
    languageDiff: bool,     // language_difference
    speakerDiff: bool       // Speaker_difference
  )

  /** The five metrics, in the order the source lists them. */
  datatype Metric = OnsetTime | Timestamp | Text | Language | Speaker

  const AllMetrics: seq<Metric> := [OnsetTime, Timestamp, Text, Language, Speaker]

  /** The sentinel an onset cell holds when the two sources agree. */
  const NoDifference: string := "No difference"

  /** The timestamp-difference cell of two agreeing timestamps. */
  const ZeroTimestamp: string := "00:00:00"

  /** Exact, case-sensitive equality for the two string columns; `false` for the flags. */
  predicate Agrees(r: Row, m: Metric)
  {
    match m
    case OnsetTime => r.onsetDiff == NoDifference
    case Timestamp => r.timestampDiff == ZeroTimestamp
    case Text => r.textDiff == false
    case Language => r.languageDiff == false
    case Speaker => r.speakerDiff == false
  }

  /** The number of rows that agree on `m` (the `eq(...).sum()` of a column). */
  function CountAgreeing(rows: seq<Row>, m: Metric): (n: nat)
    ensures n <= |rows|
  {
    if rows == [] then 0
    else CountAgreeing(rows[..|rows| - 1], m) + (if Agrees(rows[|rows| - 1], m) then 1 else 0)
  }

  /** Reference definition: the positions of the agreeing rows. */
  ghost function AgreeingIndices(rows: seq<Row>, m: Metric): set<nat>
  {
    set i: nat | i < |rows| && Agrees(rows[i], m)
  }

  /** Appending a row adds its position exactly when it agrees. */
  lemma AgreeingIndicesOfLast(rows: seq<Row>, m: Metric)
    requires rows != []
    ensures AgreeingIndices(rows, m) ==
      AgreeingIndices(rows[..|rows| - 1], m) + (if Agrees(rows[|rows| - 1], m) then {|rows| - 1} else {})
    ensures |rows| - 1 !in AgreeingIndices(rows[..|rows| - 1], m)
  {
    var n := |rows| - 1;
    var init := rows[..n];
    var all, before := AgreeingIndices(rows, m), AgreeingIndices(init, m);
    var last: set<nat> := if Agrees(rows[n], m) then {n} else {};
    forall i | i in all ensures i in before + last {
      if i < n { assert rows[i] == init[i]; }
    }
    forall i | i in before + last ensures i in all {
      if i < n { assert rows[i] == init[i]; }
    }
  }

  /** The tally is the number of agreeing positions. */
  lemma {:induction false} CountIsAgreeingIndices(rows: seq<Row>, m: Metric)
    ensures CountAgreeing(rows, m) == |AgreeingIndices(rows, m)|
  {
    if rows != [] {
      var n := |rows| - 1;
      CountIsAgreeingIndices(rows[..n], m);
      AgreeingIndicesOfLast(rows, m);
    }
  }

  /** The tally reaches the row count exactly when every row agrees. */
  lemma {:induction false} CountIsTotalIffAllAgree(rows: seq<Row>, m: Metric)
    ensures CountAgreeing(rows, m) == |rows| <==> forall i :: 0 <= i < |rows| ==> Agrees(rows[i], m)
  {
    if rows != [] {
      var n := |rows| - 1;
      var init := rows[..n];
      CountIsTotalIffAllAgree(init, m);
      assert forall i :: 0 <= i < n ==> rows[i] == init[i];
    }
  }

  /** The tally is zero exactly when no row agrees. */
  lemma {:induction false} CountIsZeroIffNoneAgree(rows: seq<Row>, m: Metric)
    ensures CountAgreeing(rows, m) == 0 <==> forall i :: 0 <= i < |rows| ==> !Agrees(rows[i], m)
  {
    if rows != [] {
      var n := |rows| - 1;
      var init := rows[..n];
      CountIsZeroIffNoneAgree(init, m);
      assert forall i :: 0 <= i < n ==> rows[i] == init[i];
    }
  }

  /** Matching rows over total rows, as an exact rational. */
  function Ratio(matching: nat, total: nat): (q: real)
    requires matching <= total && total > 0
    ensures 0.0 <= q <= 1.0
    ensures q == 1.0 <==> matching == total
    ensures q == 0.0 <==> matching == 0
  {
    matching as real / total as real
  }

  /** The accuracy of `m` over a non-empty table. */
  function AccuracyOf(rows: seq<Row>, m: Metric): (q: real)
    requires |rows| > 0
    ensures 0.0 <= q <= 1.0
  {
    Ratio(CountAgreeing(rows, m), |rows|)
  }

  /** Accuracy is exactly 1 when every row agrees, exactly 0 when none does, and only then. */
  lemma AccuracyExtremes(rows: seq<Row>, m: Metric)
    requires |rows| > 0
    ensures AccuracyOf(rows, m) == 1.0 <==> forall i :: 0 <= i < |rows| ==> Agrees(rows[i], m)
    ensures AccuracyOf(rows, m) == 0.0 <==> forall i :: 0 <= i < |rows| ==> !Agrees(rows[i], m)
  {
    CountIsTotalIffAllAgree(rows, m);
    CountIsZeroIffNoneAgree(rows, m);
  }

  /** Only the exact sentinels count: any other onset or timestamp cell is a disagreement. */
  lemma ExactSentinelsOnly(r: Row)
    ensures Agrees(r, OnsetTime) <==> r.onsetDiff == "No difference"
    ensures Agrees(r, Timestamp) <==> r.timestampDiff == "00:00:00"
    ensures !Agrees(r.(onsetDiff := "no difference"), OnsetTime)
    ensures !Agrees(r.(onsetDiff := ""), OnsetTime)
    ensures !Agrees(r.(timestampDiff := "00:00:01"), Timestamp)
  {
  }
}
