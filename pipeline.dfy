/**
 * The two core steps composed as the program composes them: the counts `process_data`
 * returns are the input of `calculate_metrics`. Because the true counts are incremented
 * only together with the true-positive counts, every fn is 0 on this path.
 */
module Pipeline {
  import opened Outcomes
  import opened Preprocessing
  import opened MetricsCalculation

  /** The metrics computed from the counts of a successful aggregation. */
  function Scores(rows: seq<PredictionRow>, genreColumn: seq<string>): Result<Metrics, MetricsError>
    requires Aggregate(rows, genreColumn).Success?
  {
    var t := Aggregate(rows, genreColumn).value;
    Evaluate(t.genreList, t.trueCounts, t.tpCounts, t.fpCounts)
  }

  lemma AggregateKnowsEveryGenre(rows: seq<PredictionRow>, genreColumn: seq<string>)
    requires Aggregate(rows, genreColumn).Success?
    ensures var t := Aggregate(rows, genreColumn).value;
      forall j :: 0 <= j < |genreColumn| ==> Known(genreColumn[j], t.trueCounts, t.tpCounts, t.fpCounts)
  {
    forall j | 0 <= j < |genreColumn|
      ensures Known(genreColumn[j], Scan(rows, |rows|, genreColumn, true), Scan(rows, |rows|, genreColumn, true), Scan(rows, |rows|, genreColumn, false))
    {
      ScanKeys(rows, |rows|, genreColumn, true, genreColumn[j]);
      ScanKeys(rows, |rows|, genreColumn, false, genreColumn[j]);
    }
  }

  /**
   * The counts of a successful aggregation are always accepted by the metrics step, and
   * every score it returns lies in [0, 1].
   */
  lemma PipelineSucceeds(rows: seq<PredictionRow>, genreColumn: seq<string>)
    requires Aggregate(rows, genreColumn).Success?
    ensures Scores(rows, genreColumn).Success?
    ensures var m := Scores(rows, genreColumn).value;
      && 0.0 <= m.microPrecision <= 1.0 && 0.0 <= m.microRecall <= 1.0 && 0.0 <= m.microF1 <= 1.0
      && (forall i :: 0 <= i < |m.macroPrecision| ==> 0.0 <= m.macroPrecision[i] <= 1.0)
      && (forall i :: 0 <= i < |m.macroRecall| ==> 0.0 <= m.macroRecall[i] <= 1.0)
      && (forall i :: 0 <= i < |m.macroF1| ==> 0.0 <= m.macroF1[i] <= 1.0)
  {
    var t := Aggregate(rows, genreColumn).value;
    AggregateKnowsEveryGenre(rows, genreColumn);
    EvaluateFailsOnMissingGenre(t.genreList, t.trueCounts, t.tpCounts, t.fpCounts);
    AggregateShape(rows, genreColumn);
    MetricsInUnitInterval(t.genreList, t.trueCounts, t.tpCounts, t.fpCounts);
  }

  /**
   * No false negatives: since true counts equal true-positive counts, the recall of a
   * genre is 1 when some row predicts it correctly and 0 otherwise, and micro recall is 1
   * exactly when the true-positive counts over the list are not all 0.
   */
  lemma PipelineRecallIsZeroOrOne(rows: seq<PredictionRow>, genreColumn: seq<string>)
    requires Aggregate(rows, genreColumn).Success?
    ensures Scores(rows, genreColumn).Success?
    ensures var t := Aggregate(rows, genreColumn).value;
      var m := Scores(rows, genreColumn).value;
      && |m.macroRecall| == |genreColumn|
      && (forall i :: 0 <= i < |genreColumn| ==>
            genreColumn[i] in t.tpCounts && m.macroRecall[i] == if t.tpCounts[genreColumn[i]] > 0 then 1.0 else 0.0)
      && m.microRecall == if Sum(genreColumn, |genreColumn|, t.tpCounts) > 0 then 1.0 else 0.0
  {
    var t := Aggregate(rows, genreColumn).value;
    PipelineSucceeds(rows, genreColumn);
    RecallWithoutFalseNegatives(t.genreList, t.trueCounts, t.tpCounts, t.fpCounts);
  }

  /**
   * Over a duplicate-free genre column, micro precision is the fraction of rows marked
   * correct (0 when there are no rows), and micro recall is 1 exactly when some row is.
   */
  lemma MicroPrecisionIsAccuracy(rows: seq<PredictionRow>, genreColumn: seq<string>)
    requires Distinct(genreColumn) && Aggregate(rows, genreColumn).Success?
    ensures Scores(rows, genreColumn).Success?
    ensures var m := Scores(rows, genreColumn).value;
      && m.microPrecision == Ratio(Flagged(rows, |rows|, true), |rows|)
      && m.microRecall == if Flagged(rows, |rows|, true) > 0 then 1.0 else 0.0
  {
    var t := Aggregate(rows, genreColumn).value;
    PipelineRecallIsZeroOrOne(rows, genreColumn);
    RowsConserved(rows, genreColumn);
    MicroPrecisionOfTotals(t.genreList, t.trueCounts, t.tpCounts, t.fpCounts, Flagged(rows, |rows|, true), |rows|);
  }

  /** With no prediction rows every score is 0 and each list has one 0 per genre. */
  lemma NoRowsScoreZero(genreColumn: seq<string>)
    ensures Aggregate([], genreColumn).Success?
    ensures var m := Scores([], genreColumn).value;
      && Scores([], genreColumn).Success?
      && m.microPrecision == 0.0 && m.microRecall == 0.0 && m.microF1 == 0.0
      && m.macroPrecision == m.macroRecall == m.macroF1 == seq(|genreColumn|, i => 0.0)
  {
    var t := Aggregate([], genreColumn).value;
    PipelineRecallIsZeroOrOne([], genreColumn);
    MacroShape(t.genreList, t.trueCounts, t.tpCounts, t.fpCounts);
    forall i | 0 <= i < |genreColumn|
      ensures t.tpCounts[genreColumn[i]] == 0
    {
      ScanCounts([], 0, genreColumn, true, genreColumn[i]);
    }
    SumOfZeroCounts(genreColumn, |genreColumn|, genreColumn);
  }
}
