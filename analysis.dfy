/**
 * The batch analysis script: the per-file accuracy calculator and the
 * loop that runs it over every discovered file, keeping the successes.
 */
module Analysis {
  import opened Wrappers
  import opened Agreement

  /** The `Matching_Rows` sub-record: one agreeing-row count per metric. */
  datatype MatchingRows = MatchingRows(onsetTime: nat, timestamp: nat, text: nat, language: nat, speaker: nat)
  {
    function Of(m: Metric): nat
    {
      match m
      case OnsetTime => onsetTime
      case Timestamp => timestamp
      case Text => text
      case Language => language
      case Speaker => speaker
    }
  }

  /** The record one file contributes: total rows, five accuracies, five counts. */
  datatype FileResult = FileResult(
    totalRows: nat,
    onsetTimeAccuracy: real,
    timestampAccuracy: real,
    textAccuracy: real,
    languageAccuracy: real,
    speakerAccuracy: real,
    matchingRows: MatchingRows)
  {
    /** The `<metric>_Accuracy` column of this record. */
    function Accuracy(m: Metric): real
    {
      match m
      case OnsetTime => onsetTimeAccuracy
      case Timestamp => timestampAccuracy
      case Text => textAccuracy
      case Language => languageAccuracy
      case Speaker => speakerAccuracy
    }
  }

  /**
   * The accuracy calculator: no result for an empty table; otherwise the
   * row count, each metric's agreeing rows and their share of the table.
   */
  function CalculateAccuracy(rows: seq<Row>): (r: Option<FileResult>)
    ensures r.None? <==> |rows| == 0
    ensures r.Some? ==> r.value.totalRows == |rows|
    ensures r.Some? ==> forall m: Metric ::
      r.value.matchingRows.Of(m) == CountAgreeing(rows, m) && r.value.Accuracy(m) == AccuracyOf(rows, m)
  {
    var total := |rows|;
    if total == 0 then None
    else
      Some(FileResult(
        total,
        AccuracyOf(rows, OnsetTime),
        AccuracyOf(rows, Timestamp),
        AccuracyOf(rows, Text),
        AccuracyOf(rows, Language),
        AccuracyOf(rows, Speaker),
        MatchingRows(
          CountAgreeing(rows, OnsetTime),
          CountAgreeing(rows, Timestamp),
          CountAgreeing(rows, Text),
          CountAgreeing(rows, Language),
          CountAgreeing(rows, Speaker))))
  }

  /** Each count is the number of agreeing rows, each accuracy 1 or 0 exactly at the extremes. */
  lemma CalculateAccuracyMeaning(rows: seq<Row>, m: Metric)
    requires |rows| > 0
    ensures CalculateAccuracy(rows).Some?
    ensures CalculateAccuracy(rows).value.matchingRows.Of(m) == |AgreeingIndices(rows, m)|
    ensures CalculateAccuracy(rows).value.matchingRows.Of(m) <= CalculateAccuracy(rows).value.totalRows
    ensures 0.0 <= CalculateAccuracy(rows).value.Accuracy(m) <= 1.0
    ensures CalculateAccuracy(rows).value.Accuracy(m) ==
      CalculateAccuracy(rows).value.matchingRows.Of(m) as real / |rows| as real
    ensures CalculateAccuracy(rows).value.Accuracy(m) == 1.0 <==>
      forall i :: 0 <= i < |rows| ==> Agrees(rows[i], m)
    ensures CalculateAccuracy(rows).value.Accuracy(m) == 0.0 <==>
      forall i :: 0 <= i < |rows| ==> !Agrees(rows[i], m)
  {
    CountIsAgreeingIndices(rows, m);
    AccuracyExtremes(rows, m);
  }

  /** Why a file produced no table: unreadable/unparsable, or a required column is absent. */
  datatype LoadError = Unreadable(message: string) | MissingColumn(column: string)

  /** One discovered file: its name and the outcome of loading it. */
  datatype SourceFile = SourceFile(filename: string, table: Result<seq<Row>, LoadError>)

  /** A kept result, tagged with the file it came from. */
  datatype TaggedResult = TaggedResult(filename: string, result: FileResult)

  /** What one file contributes to the batch: one tagged result, or nothing. */
  function Contribution(f: SourceFile): (c: seq<TaggedResult>)
    ensures |c| <= 1
  {
    match f.table
    case Failure(_) => []
    case Success(rows) =>
      match CalculateAccuracy(rows)
      case None => []
      case Some(r) => [TaggedResult(f.filename, r)]
  }

  /** The batch's specification: the contributions of the files, in their order. */
  function Kept(files: seq<SourceFile>): (kept: seq<TaggedResult>)
    ensures |kept| <= |files|
  {
    if files == [] then []
    else Kept(files[..|files| - 1]) + Contribution(files[|files| - 1])
  }

  /** The files a batch keeps: those that loaded and have at least one row. */
  predicate Succeeds(f: SourceFile): (ok: bool)
    ensures ok <==> |Contribution(f)| == 1
  {
    f.table.Success? && |f.table.value| > 0
  }

  /**
   * The batch loop: every file in order, a failure to load or an empty
   * table contributing nothing, every other file its tagged result.
   */
  method ProcessFiles(files: seq<SourceFile>) returns (allResults: seq<TaggedResult>)
    ensures allResults == Kept(files)
  {
    allResults := [];
    for k := 0 to |files|
      invariant allResults == Kept(files[..k])
    {
      var file := files[k];
      assert files[..k + 1][..k] == files[..k];
      match file.table {
        case Failure(_) =>
          // the broad `except`: the file is reported and skipped
        case Success(rows) =>
          var results := CalculateAccuracy(rows);
          if results.Some? {
            allResults := allResults + [TaggedResult(file.filename, results.value)];
          }
      }
    }
    assert files[..|files|] == files;
  }

  /** A kept entry comes from a file that succeeded, and carries that file's name and result. */
  lemma {:induction false} KeptEntriesFromSuccesses(files: seq<SourceFile>, j: nat)
    requires j < |Kept(files)|
    ensures exists i :: (0 <= i < |files| && Succeeds(files[i]) &&
      Kept(files)[j] == TaggedResult(files[i].filename, CalculateAccuracy(files[i].table.value).value))
  {
    var n := |files| - 1;
    var init := files[..n];
    if j < |Kept(init)| {
      KeptEntriesFromSuccesses(init, j);
      var i :| 0 <= i < |init| && Succeeds(init[i]) &&
        Kept(init)[j] == TaggedResult(init[i].filename, CalculateAccuracy(init[i].table.value).value);
      assert files[i] == init[i];
    } else {
      assert Kept(files)[j] == Contribution(files[n])[0];
    }
  }

  /** Every file that succeeded has its tagged result in the batch output. */
  lemma {:induction false} SuccessesAreKept(files: seq<SourceFile>, i: nat)
    requires i < |files| && Succeeds(files[i])
    ensures TaggedResult(files[i].filename, CalculateAccuracy(files[i].table.value).value) in Kept(files)
  {
    var n := |files| - 1;
    var init := files[..n];
    if i < n {
      SuccessesAreKept(init, i);
      assert files[i] == init[i];
    }
  }

  /** The number of files a batch keeps. */
  function CountSucceeding(files: seq<SourceFile>): nat
  {
    if files == [] then 0
    else CountSucceeding(files[..|files| - 1]) + (if Succeeds(files[|files| - 1]) then 1 else 0)
  }

  /** The output has one entry per succeeding file; failed and empty files contribute nothing. */
  lemma {:induction false} KeptLength(files: seq<SourceFile>)
    ensures |Kept(files)| == CountSucceeding(files)
  {
    if files != [] {
      KeptLength(files[..|files| - 1]);
    }
  }

  /** Python's `<` on strings: lexicographic by character, a proper prefix first. */
  predicate LexLess(a: string, b: string): (less: bool)
    ensures less ==> a != b
  {
    |b| > 0 && (|a| == 0 || a[0] < b[0] || (a[0] == b[0] && LexLess(a[1..], b[1..])))
  }

  /** Filenames in strictly increasing order, as `sorted(glob(...))` yields them. */
  predicate StrictlySorted(names: seq<string>)
  {
    forall i, j :: 0 <= i < j < |names| ==> LexLess(names[i], names[j])
  }

  function Filenames(files: seq<SourceFile>): (names: seq<string>)
    ensures |names| == |files| && forall i :: 0 <= i < |files| ==> names[i] == files[i].filename
  {
    seq(|files|, i requires 0 <= i < |files| => files[i].filename)
  }

  /** A name after every discovered filename comes after every kept filename. */
  lemma KeptNamesBefore(files: seq<SourceFile>, name: string)
    requires forall p :: 0 <= p < |files| ==> LexLess(files[p].filename, name)
    ensures forall i :: 0 <= i < |Kept(files)| ==> LexLess(Kept(files)[i].filename, name)
  {
    forall i | 0 <= i < |Kept(files)|
      ensures LexLess(Kept(files)[i].filename, name)
    {
      KeptEntriesFromSuccesses(files, i);
    }
  }

  /** Keeping a subset of sorted files keeps the output in sorted filename order. */
  lemma {:induction false} KeptIsSorted(files: seq<SourceFile>)
    requires StrictlySorted(Filenames(files))
    ensures forall i, j :: 0 <= i < j < |Kept(files)| ==> LexLess(Kept(files)[i].filename, Kept(files)[j].filename)
  {
    if files != [] {
      var n := |files| - 1;
      var init := files[..n];
      assert Filenames(init) == Filenames(files)[..n];
      KeptIsSorted(init);
      assert forall p :: 0 <= p < n ==> Filenames(files)[p] == init[p].filename;
      KeptNamesBefore(init, files[n].filename);
      var kept, prev := Kept(files), Kept(init);
      assert forall i :: 0 <= i < |prev| ==> kept[i] == prev[i];
      assert forall j :: |prev| <= j < |kept| ==> kept[j].filename == files[n].filename;
    }
  }

  /** Three files, the middle one malformed: two entries, tagged with the other two names. */
  lemma MalformedFileIsSkipped(a: seq<Row>, c: seq<Row>)
    requires |a| > 0 && |c| > 0
    ensures |Kept([SourceFile("v001.csv", Success(a)),
                   SourceFile("v002.csv", Failure(MissingColumn("text_difference"))),
                   SourceFile("v003.csv", Success(c))])| == 2
    ensures Kept([SourceFile("v001.csv", Success(a)),
                  SourceFile("v002.csv", Failure(MissingColumn("text_difference"))),
                  SourceFile("v003.csv", Success(c))])[1].filename == "v003.csv"
  {
    var files := [SourceFile("v001.csv", Success(a)),
                  SourceFile("v002.csv", Failure(MissingColumn("text_difference"))),
                  SourceFile("v003.csv", Success(c))];
    assert files[..2][..1] == files[..1] && files[..1][..0] == [];
    assert Kept(files[..1]) == Contribution(files[0]);
    assert Kept(files[..2]) == Contribution(files[0]) + Contribution(files[1]);
    assert Kept(files) == Contribution(files[0]) + Contribution(files[1]) + Contribution(files[2]);
  }
}
