# Transcription agreement accuracy, modelled in Dafny

The repository compares two annotated speech transcriptions of the same
recordings. Each comparison table (one CSV file per recording, named
`v*.csv`) holds one row per transcript segment, with five difference columns:

- the absolute onset-time difference, or the sentinel `"No difference"`;
- the timestamp difference as `HH:MM:SS`, where `"00:00:00"` means agreement;
- three flags for text, language and speaker, where `false` means agreement.

For each table, an accuracy calculator counts the agreeing rows per metric and
divides each count by the row count. An empty table gives no result. The batch
script (`main.py`) runs the calculator over every file in sorted filename
order. It keeps only the files that loaded and produced a result, tags each
kept result with its filename, and then computes the mean, minimum and maximum
of every metric's accuracy across the kept files. The single-file script
(`Calculate_Accuracy.py`) holds a second copy of the calculator. That copy
returns a nested record per metric.

Layout:

- `wrappers.dfy` (`Wrappers`): `Option` for the "no result" signal and
  `Result` for a file that could not be loaded.
- `agreement.dfy` (`Agreement`): the row type, the five metrics, the
  agreement predicate, the per-metric count and the exact ratio. Both
  calculators share these. The lemmas relate the count to the set of agreeing
  rows and to the extremes: all rows agree, or none does.
- `analysis.dfy` (`Analysis`): `calculate_accuracy` and `process_files` from
  `main.py`. The batch loop is a method proved against the specification
  function `Kept`. Lemmas about `Kept` cover membership in both directions,
  output length and sorted order.
- `overall_statistics.dfy` (`OverallStatistics`): `calculate_overall_statistics`
  from `main.py`, restricted to Mean, Min and Max. The loop that fills the
  statistics dictionary is a method. Mean, Min and Max are functions, and a
  lemma proves Min ≤ Mean ≤ Max.
- `single_file.dfy` (`SingleFile`): `calculate_accuracy` from
  `Calculate_Accuracy.py`, with a lemma that it agrees with the batch
  calculator.

Modelling choices:

- Accuracies are exact rationals (`real`, count / total). The source divides
  NumPy integers and gets floating-point values. Exact rationals are the
  intended meaning.
- Loading a file (`pd.read_csv`) is not modelled. So is the `KeyError` raised
  for a missing column. Instead, each discovered file comes with its outcome:
  `Result<seq<Row>, LoadError>`. The broad `except` in `process_files` becomes
  the `Failure` case, which contributes nothing. In the source, an empty table
  with a missing column returns `None` before the column lookup. It is dropped
  either way, so the model is unaffected.
- `if results:` in `process_files` is modelled as "the calculator returned a
  value". A returned dictionary always has entries, so it is always truthy.
- The statistics dictionary is keyed by the `Metric` datatype, not by the
  strings `"Onset_Time"`, …, `"Speaker"`. Its five columns are the five
  `*_Accuracy` fields of a result, because those are the only columns whose
  names contain `Accuracy`. When there are no results, the results frame has
  no columns, and the statistics are empty.

## Model

| member | source | states |
|---|---|---|
| `Agreement.Agrees` | main.py:19-35 | the per-cell agreement test of each metric: the onset cell equals "No difference" exactly, the timestamp cell equals "00:00:00" exactly, and the text, language and speaker flags are `false` (the same tests at Calculate_Accuracy.py:14-30) |
| `Agreement.CountAgreeing` | main.py:19-35 | the number of agreeing rows of a metric never exceeds the row count |
| `Agreement.AgreeingIndicesOfLast` | main.py:19-35 | one more row adds its position to the agreeing set exactly when it agrees, and that position is new |
| `Agreement.CountIsAgreeingIndices` | main.py:19-35 | the count equals the number of row positions whose field is the no-difference value (exact string match for onset and timestamp, `false` for the flags) |
| `Agreement.CountIsTotalIffAllAgree` | main.py:19-35 | the count equals the row count if and only if every row agrees |
| `Agreement.CountIsZeroIffNoneAgree` | main.py:19-35 | the count is zero if and only if no row agrees |
| `Agreement.Ratio` | main.py:20 | matching / total lies in [0, 1], equals 1 exactly when matching == total, and equals 0 exactly when matching is 0 |
| `Agreement.AccuracyOf` | main.py:19-36 | each metric's accuracy over a non-empty table lies in [0, 1] |
| `Agreement.AccuracyExtremes` | main.py:19-36 | the accuracy is exactly 1 if and only if every row agrees, and exactly 0 if and only if none does |
| `Agreement.ExactSentinelsOnly` | main.py:19-24 | onset agreement is equality with "No difference" and timestamp agreement equality with "00:00:00"; a case variant, an empty string or another duration disagrees |
| `Analysis.CalculateAccuracy` | main.py:10-52 | returns None exactly for a zero-row table, with no division; otherwise Total_Rows is the row count, and each metric's Matching_Rows entry and `*_Accuracy` are that metric's agreeing-row tally and accuracy over the table |
| `Analysis.CalculateAccuracyMeaning` | main.py:19-51 | each Matching_Rows entry is the size of the set of agreeing rows and at most Total_Rows; each accuracy is that entry over the row count and lies in [0, 1]; it is 1 exactly when all rows agree and 0 exactly when none does |
| `Analysis.Contribution` | main.py:60-79 | one file contributes at most one tagged result |
| `Analysis.Succeeds` | main.py:60-65 | a file loaded (no exception) and has at least one row, which holds exactly when it contributes one tagged result, i.e. when `if results:` is true |
| `Analysis.Kept` | main.py:54-81 | the batch output is never longer than the list of discovered files |
| `Analysis.ProcessFiles` | main.py:54-81 | the loop's output is exactly `Kept(files)`: each file's contribution, in discovery order |
| `Analysis.KeptEntriesFromSuccesses` | main.py:58-65 | every output entry comes from a file that loaded with at least one row, and carries that file's name and its calculator result |
| `Analysis.SuccessesAreKept` | main.py:58-65 | every file that loaded with at least one row has its tagged result in the output |
| `Analysis.KeptLength` | main.py:58-79 | the output has exactly one entry per file that loaded with at least one row; failed and empty files contribute nothing |
| `Analysis.LexLess` | main.py:55 | Python's `<` on strings as used by `sorted`: lexicographic by character, a proper prefix first; a name is never before itself |
| `Analysis.KeptNamesBefore` | main.py:55-65 | a name after every discovered filename is after every kept filename |
| `Analysis.KeptIsSorted` | main.py:55-65 | if the discovered filenames are strictly sorted, every earlier output entry's filename is before every later one's |
| `Analysis.MalformedFileIsSkipped` | main.py:58-79 | with three files whose middle one is malformed, the output has two entries and the second is tagged with the third file's name |
| `OverallStatistics.Min` | main.py:98 | the minimum is one of the values and is at most every value |
| `OverallStatistics.Max` | main.py:99 | the maximum is one of the values and is at least every value |
| `OverallStatistics.Mean` | main.py:95 | `values.mean()`: Sum / n; any common bound of the values bounds it (`MeanWithin`), and it lies between Min and Max (`MeanBetweenMinAndMax`) |
| `OverallStatistics.MeanWithin` | main.py:95 | any bound on every value also bounds the mean |
| `OverallStatistics.MeanBetweenMinAndMax` | main.py:95-99 | Min ≤ Mean ≤ Max for every non-empty column |
| `OverallStatistics.Summarize` | main.py:94-100 | the summary's Mean is the column's mean; Min and Max are values of the column; every value lies in [Min, Max]; Min ≤ Mean ≤ Max |
| `OverallStatistics.Column` | main.py:93 | a metric's column has one value per result, that result's accuracy for the metric |
| `OverallStatistics.CalculateOverallStatistics` | main.py:83-102 | no entries when there are no results; otherwise exactly one entry per metric (five keys), each the Mean/Min/Max summary of that metric's column |
| `OverallStatistics.BatchStatisticsInUnitInterval` | main.py:85-99 | over a non-empty batch output, every metric's Min, Mean and Max lie in [0, 1] |
| `OverallStatistics.SummaryExample` | main.py:95-99 | ratios [1.0, 0.5, 0.75] give mean 0.75, min 0.5 and max 1.0 |
| `SingleFile.Tally` | Calculate_Accuracy.py:14-39 | a metric's record has total_rows equal to the row count, matching_rows at most that, accuracy × total_rows = matching_rows, and accuracy in [0, 1] |
| `SingleFile.CalculateAccuracy` | Calculate_Accuracy.py:6-71 | returns None exactly for a zero-row table; otherwise Total_Rows is the row count and each metric's nested record is that metric's tally |
| `SingleFile.DetailedResultMeaning` | Calculate_Accuracy.py:33-60 | each per-metric record's total_rows equals the top-level Total_Rows; its matching_rows is the number of agreeing rows and at most Total_Rows; its accuracy is in [0, 1] |
| `SingleFile.AccuracyExtremesOfTally` | Calculate_Accuracy.py:14-31 | each metric's accuracy is 1 exactly when every row agrees and 0 exactly when none does |
| `SingleFile.AgreesWithBatchCalculator` | Calculate_Accuracy.py:8-31 | on the same table, both scripts' calculators return None in the same cases and otherwise give the same Total_Rows, counts and ratios; the two models share one tally (`Agreement`) because the two source copies are textually identical (main.py:12-36), so this holds by construction |

## Left out

- Standard deviation and standard error (main.py:96-97): these need a square root and a sample variance with an n − 1 denominator, which is undefined for one file. Floating-point numerics are not modelled.
- Floating-point rounding of the ratios and of the mean: the model uses exact rationals.
- File discovery (`glob`, `sorted`, `os.path.basename`) and CSV reading (`pd.read_csv`): the batch takes the discovered files, with their load outcomes, as input. Sorted order is a hypothesis of `Analysis.KeptIsSorted`.
- pandas dtype inference: the flags are typed `bool`. Whether a CSV cell becomes a boolean or a string is not modelled.
- `save_results` (CSV output, directory creation and the bar chart) and every `print`: these are output only.
- `main` in both scripts: this is console plumbing. The single-file script's loop over a fixed filename list and its broad `except` are part of it.
- The selection of accuracy columns by the substring `Accuracy`, and the renaming of those columns, are not computed on strings. The five metrics are fixed.
- The insertion order of the statistics dictionary is not kept, because a Dafny `map` is unordered.
- `Analysis.Kept`: its own contract bounds only the output length. The meaning of the output is stated by `KeptEntriesFromSuccesses`, `SuccessesAreKept`, `KeptLength` and `KeptIsSorted`.
