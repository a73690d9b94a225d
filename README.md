# Genre-prediction metrics: count aggregation and precision/recall/F1

This project models the two computational steps of a genre-classifier scoring program.
Its prediction table has, per row, one predicted genre, a set of actual genres and a
correctness flag. A genre column lists the genres being scored.

* **`process_data`** (module `Preprocessing`, file `preprocessing.dfy`):
  * It builds three count maps keyed by the genre column: true counts, true-positive counts and false-positive counts. Every genre starts at 0.
  * It makes one pass over the rows. A row whose flag equals 1 adds one to the true count and to the true-positive count of its predicted genre. Any other row adds one to that genre's false-positive count.
  * A predicted genre that is not a key is a KeyError. Here it is the result `Failure(UnknownGenre(g))`, naming the genre of the first such row.
* **`calculate_metrics`** (module `MetricsCalculation`, file `metrics_calculation.dfy`):
  * It walks the genre list in order and reads tp, fp and fn = true count − tp for each genre.
  * It computes precision, recall and F1 with every zero denominator giving 0, and appends them to three aligned macro lists.
  * It keeps running micro sums, and after the loop applies the same guarded formulas to those sums.
  * A genre some map lacks is a KeyError. Here it is the result `Failure(MissingGenre(g))`.
* **The composition** (module `Pipeline`, file `pipeline.dfy`): the counts `process_data` returns are fed to `calculate_metrics`.

Both source functions are loops that update accumulators in place, so both are Dafny
methods with `while` loops. Each method is proved equal to a reference function:
* `ProcessData` returns `Aggregate(rows, genreColumn)`;
* `CalculateMetrics` returns `Evaluate(genreList, trueCounts, tpCounts, fpCounts)`.

The properties the program promises are proved as lemmas about those functions.
Dictionaries are `map<string, nat>` and lists are `seq`. Ratios are exact `real`
quotients of integer counts.

## Model

| member | source | states |
|---|---|---|
| Preprocessing.ProcessData | src/preprocessing.py:24-52 | the method's result is `Aggregate` of its inputs: the three count maps built by one pass over the rows, or the KeyError of the first row whose predicted genre has no key |
| Preprocessing.ScanKeys | src/preprocessing.py:37-39 | a genre is a key of a count map, after any number of rows, exactly when it is in the genre column |
| Preprocessing.AggregateShape | src/preprocessing.py:35-52 | on success the returned genre list is the column unchanged; each map's keys are exactly the column's genres; true counts equal tp counts; a genre no row predicts maps to 0 in all three maps |
| Preprocessing.NeverPredictedIsZero | src/preprocessing.py:37-39 | a genre none of the first n rows predicts has tally 0 |
| Preprocessing.ScanCounts | src/preprocessing.py:41-50 | while every row read so far has a known genre, a genre's entry is the number of rows read so far that predict it with the map's correctness |
| Preprocessing.RowTouchesOnlyItsGenre | src/preprocessing.py:46-50 | reading one row changes only the entry of its own predicted genre, by exactly one, in the maps of its own correctness; every other entry is unchanged |
| Preprocessing.TallyIsCardinality | src/preprocessing.py:41-50 | a tally equals the size of the set of row indices that predict the genre with that correctness |
| Preprocessing.AggregateCountsExactly | src/preprocessing.py:46-50 | a genre's tp count is the number of rows predicting it with flag 1, and its fp count the number predicting it with any other flag value |
| Preprocessing.FirstUnknownFrom | src/preprocessing.py:41-50 | none is returned exactly when every row from `from` on has a known genre; otherwise the result is the first row with an unknown genre |
| Preprocessing.AggregateFailsOnUnknownGenre | src/preprocessing.py:47-50 | aggregation fails exactly when some row predicts a genre outside the column, and then the error names the genre of the first such row |
| Preprocessing.UnknownAt | src/preprocessing.py:47-50 | the first failing lookup in the pass is the failure `Aggregate` reports |
| Preprocessing.ScanIgnoresActual | src/preprocessing.py:42-50 | two tables that agree on predicted genre and flag row by row build the same count maps |
| Preprocessing.AggregateIgnoresActual | src/preprocessing.py:42-50 | the actual-genres field of the rows never affects the result, error or success |
| Preprocessing.ScanTotal | src/preprocessing.py:41-50 | over a duplicate-free genre column covering the rows, a count map sums to the number of rows with its correctness |
| Preprocessing.FlaggedPartition | src/preprocessing.py:46-50 | every row is either correct or not: the two flagged counts add up to the number of rows |
| Preprocessing.RowsConserved | src/preprocessing.py:41-50 | over a duplicate-free column the tp map sums to the number of correct rows, and the tp and fp maps together sum to the number of rows |
| Preprocessing.Tally | src/preprocessing.py:41-50 | a tally over the first n rows never exceeds n |
| MetricsCalculation.CalculateMetrics | src/metrics_calculation.py:13-79 | the method's result is `Evaluate` of the genre list and the three maps; `modelPred` plays no part in it |
| MetricsCalculation.GuardedScores | src/metrics_calculation.py:51-64 | the three guarded formulas, used both per genre and for the micro sums at lines 75-77, yield `Precision`, `Recall` and `F1` of their arguments |
| MetricsCalculation.RatioBounds | src/metrics_calculation.py:51-59 | a ratio is 0 without a positive denominator; otherwise ratio × denominator equals the numerator; with 0 ≤ num ≤ den it lies in [0,1], is 0 iff num is 0, and is 1 iff 0 < num = den |
| MetricsCalculation.F1Between | src/metrics_calculation.py:61-64 | for non-negative precision and recall, F1 lies between their minimum and maximum, and is 0 exactly when one of them is 0 |
| MetricsCalculation.ScoresInUnitInterval | src/metrics_calculation.py:49-64 | with fn ≥ 0, precision, recall and F1 all lie in [0,1] |
| MetricsCalculation.NoTruePositivesScoreZero | src/metrics_calculation.py:51-64 | a genre with tp = 0 (in particular tp = fp = true count = 0) gets precision, recall and F1 all exactly 0 |
| MetricsCalculation.FirstMissingFrom | src/metrics_calculation.py:46-49 | none is returned exactly when every genre from `from` on is a key of all three maps; otherwise the result is the first genre that is not |
| MetricsCalculation.MissingAt | src/metrics_calculation.py:46-49 | the first failing lookup of the loop is the failure `Evaluate` reports |
| MetricsCalculation.EvaluateFailsOnMissingGenre | src/metrics_calculation.py:46-49 | evaluation fails exactly when some genre of the list is missing from a map, and the error names the first such genre |
| MetricsCalculation.MacroListsAligned | src/metrics_calculation.py:42-68 | after n genres the three macro lists have length n, and entry i is the precision, recall or F1 of genre i |
| MetricsCalculation.MacroShape | src/metrics_calculation.py:42-68 | on success the three macro lists have the length of the genre list, and entry i scores genre i |
| MetricsCalculation.SumFnIsDifference | src/metrics_calculation.py:49-72 | the running fn sum equals the summed true counts minus the summed tp counts |
| MetricsCalculation.MicroFromSums | src/metrics_calculation.py:70-77 | micro precision is the guarded ratio of summed tp over summed tp + fp; micro recall is the guarded ratio of summed tp over summed true counts; micro F1 combines the two with the per-genre formula |
| MetricsCalculation.MetricsInUnitInterval | src/metrics_calculation.py:49-77 | when no genre has more tp than true count, the three micro scores and every macro entry lie in [0,1] |
| MetricsCalculation.RecallWithoutFalseNegatives | src/metrics_calculation.py:49-59 | when true counts equal tp counts, each genre's recall is 1 if its tp is positive and 0 otherwise, and micro recall likewise for the summed tp |
| MetricsCalculation.EmptyGenreList | src/metrics_calculation.py:40-79 | an empty genre list gives micro precision, recall and F1 of 0 and three empty lists |
| MetricsCalculation.WorkedExample | src/metrics_calculation.py:46-77 | for genres A, B, C with true {A:2,B:1,C:0}, tp {A:2,B:0,C:0} and fp {A:0,B:1,C:0}: A scores 1/1/1, B and C score 0/0/0, and the micro scores are all 2/3 |
| Pipeline.AggregateKnowsEveryGenre | src/preprocessing.py:37-39 | after a successful aggregation every genre of the column is a key of all three maps |
| Pipeline.PipelineSucceeds | src/metrics_calculation.py:46-77 | the counts of a successful aggregation never make the metrics step fail, and every score it returns lies in [0,1] |
| Pipeline.PipelineRecallIsZeroOrOne | src/preprocessing.py:46-48 | because true and tp counts move together, every macro recall is 1 for a genre with a correct prediction and 0 otherwise, and micro recall is 1 exactly when the summed tp is positive |
| Pipeline.MicroPrecisionIsAccuracy | src/preprocessing.py:41-50 | over a duplicate-free column, micro precision is the fraction of rows marked correct (0 without rows), and micro recall is 1 exactly when some row is correct |
| Pipeline.NoRowsScoreZero | src/preprocessing.py:37-39 | with no rows aggregation succeeds, every micro score is 0, and each macro list holds one 0 per genre |

`Preprocessing.Aggregate`, `Preprocessing.Scan`, `MetricsCalculation.Evaluate` and the
per-genre score functions are the reference definitions the methods are proved against.
The lemmas above give them their meaning.

## Left out

- `load_data` (src/preprocessing.py:11-21): reading the two CSV files through pandas is I/O. The rows and the genre column are parameters.
- `calculate_sklearn_metrics` (src/metrics_calculation.py:83-121): it wraps scikit-learn's `precision_recall_fscore_support`, which is not part of this model.
  - It also calls `itterws`, which does not exist (line 109), so it fails before computing anything.
  - The label sequences it builds are not aligned (lines 112-113).
- `eval(row['actual genres'])` (src/preprocessing.py:42): parsing a Python literal from text is not modelled. A row carries an already-parsed `set<string>`. `process_data` never uses the value, so a malformed field raising an error is not modelled either.
- pandas: iterating over DataFrame rows and `.tolist()` become a `seq` of records and a `seq<string>`.
- Floating point: every ratio is an exact `real`, so IEEE rounding is not reproduced.
  - Python's mix of `int` 0 and `float` results is not reproduced either; both are the real 0.
- The correctness flag is an `int` compared with `== 1`, as in the source. Other types the column might hold in pandas (bool, float, string) are not modelled.
- Duplicate genres in the genre column: the model does not exclude them.
  - A duplicated genre is one key in each map, and its macro entries repeat in the lists.
  - Only the lemmas that sum over the column (`ScanTotal`, `RowsConserved`, `MicroPrecisionIsAccuracy`) require a duplicate-free column.
- The KeyError of `calculate_metrics` is modelled as naming the genre. Which of the three lookups raised it (tp, fp or true count, lines 47-49) is not modelled.
- `CalculateMetrics` calls the helper `GuardedScores` for the per-genre formulas (lines 51-64) and for the micro formulas (lines 75-77). The source writes the same formulas out twice.
- The composition of the two steps (module `Pipeline`) follows the order the program runs them. The program's entry point, which loads, processes, calculates and prints, is not part of this model.
