/**
 * The precision/recall/F1 engine (`calculate_metrics`).
 *
 * For each genre of the genre list, in order, it reads tp and fp from their maps and
 * takes fn = true count - tp, computes precision, recall and F1 with every zero
 * denominator giving 0, appends them to three positionally aligned lists and adds tp, fp
 * and fn to running micro sums. After the loop the same guarded formulas are applied to
 * the sums. Ratios are exact reals: the model does not reproduce floating-point rounding.
 */
module MetricsCalculation {
  import opened Outcomes
  import opened Preprocessing

  /** The six values `calculate_metrics` returns. */
  datatype Metrics = Metrics(
    microPrecision: real,
    microRecall: real,
    microF1: real,
    macroPrecision: seq<real>,
    macroRecall: seq<real>,
    macroF1: seq<real>)

  /** The KeyError raised when a genre of the list has no entry in one of the count maps. */
  datatype MetricsError = MissingGenre(genre: string)

  /** `num / den` when `den > 0`, else exactly 0. */
  function Ratio(num: int, den: int): real
  {
    if den > 0 then num as real / den as real else 0.0
  }

  function Precision(tp: nat, fp: nat): real
  {
    Ratio(tp, tp + fp)
  }

  /** `fn` is an int: the source computes it as true count - tp, which nothing keeps >= 0. */
  function Recall(tp: nat, fn: int): real
  {
    Ratio(tp, tp + fn)
  }

  function F1(precision: real, recall: real): real
  {
    if precision + recall > 0.0 then 2.0 * (precision * recall) / (precision + recall) else 0.0
  }

  function Min(x: real, y: real): real { if x <= y then x else y }

  function Max(x: real, y: real): real { if x <= y then y else x }

  /** A genre all three count maps know. */
  predicate Known(g: string, trueCounts: map<string, nat>, tpCounts: map<string, nat>, fpCounts: map<string, nat>)
  {
    g in tpCounts && g in fpCounts && g in trueCounts
  }

  /** Every one of the first `n` genres of the list is known to all three maps. */
  predicate KnownBefore(gs: seq<string>, n: nat, trueCounts: map<string, nat>, tpCounts: map<string, nat>, fpCounts: map<string, nat>)
    requires n <= |gs|
  {
    forall j :: 0 <= j < n ==> Known(gs[j], trueCounts, tpCounts, fpCounts)
  }

  /** The index of the first genre at or after `from` that some count map lacks, if any. */
  function FirstMissingFrom(gs: seq<string>, from: nat, trueCounts: map<string, nat>, tpCounts: map<string, nat>, fpCounts: map<string, nat>)
    : (k: Option<nat>)
    requires from <= |gs|
    ensures k.None? <==> forall j :: from <= j < |gs| ==> Known(gs[j], trueCounts, tpCounts, fpCounts)
    ensures k.Some? ==>
      && from <= k.value < |gs|
      && !Known(gs[k.value], trueCounts, tpCounts, fpCounts)
      && forall j :: from <= j < k.value ==> Known(gs[j], trueCounts, tpCounts, fpCounts)
    decreases |gs| - from
  {
    if from == |gs| then None
    else if !Known(gs[from], trueCounts, tpCounts, fpCounts) then Some(from)
    else FirstMissingFrom(gs, from + 1, trueCounts, tpCounts, fpCounts)
  }

  /** The sum over the first `n` genres of true count - tp, each term as the source computes it. */
  function SumFn(gs: seq<string>, n: nat, trueCounts: map<string, nat>, tpCounts: map<string, nat>): int
    requires n <= |gs| && forall j :: 0 <= j < n ==> gs[j] in trueCounts && gs[j] in tpCounts
  {
    if n == 0 then 0
    else SumFn(gs, n - 1, trueCounts, tpCounts) + (trueCounts[gs[n - 1]] as int - tpCounts[gs[n - 1]])
  }

  function GenrePrecision(g: string, tpCounts: map<string, nat>, fpCounts: map<string, nat>): real
    requires g in tpCounts && g in fpCounts
  {
    Precision(tpCounts[g], fpCounts[g])
  }

  function GenreRecall(g: string, trueCounts: map<string, nat>, tpCounts: map<string, nat>): real
    requires g in trueCounts && g in tpCounts
  {
    Recall(tpCounts[g], trueCounts[g] as int - tpCounts[g])
  }

  function GenreF1(g: string, trueCounts: map<string, nat>, tpCounts: map<string, nat>, fpCounts: map<string, nat>): real
    requires Known(g, trueCounts, tpCounts, fpCounts)
  {
    F1(GenrePrecision(g, tpCounts, fpCounts), GenreRecall(g, trueCounts, tpCounts))
  }

  /** The macro precision list for the first `n` genres: one entry per position. */
  function Precisions(gs: seq<string>, n: nat, tpCounts: map<string, nat>, fpCounts: map<string, nat>): seq<real>
    requires n <= |gs| && forall j :: 0 <= j < n ==> gs[j] in tpCounts && gs[j] in fpCounts
  {
    if n == 0 then []
    else Precisions(gs, n - 1, tpCounts, fpCounts) + [GenrePrecision(gs[n - 1], tpCounts, fpCounts)]
  }

  /** The macro recall list for the first `n` genres: one entry per position. */
  function Recalls(gs: seq<string>, n: nat, trueCounts: map<string, nat>, tpCounts: map<string, nat>): seq<real>
    requires n <= |gs| && forall j :: 0 <= j < n ==> gs[j] in trueCounts && gs[j] in tpCounts
  {
    if n == 0 then []
    else Recalls(gs, n - 1, trueCounts, tpCounts) + [GenreRecall(gs[n - 1], trueCounts, tpCounts)]
  }

  /** The macro F1 list for the first `n` genres: one entry per position. */
  function F1s(gs: seq<string>, n: nat, trueCounts: map<string, nat>, tpCounts: map<string, nat>, fpCounts: map<string, nat>): seq<real>
    requires n <= |gs| && KnownBefore(gs, n, trueCounts, tpCounts, fpCounts)
  {
    if n == 0 then []
    else F1s(gs, n - 1, trueCounts, tpCounts, fpCounts) + [GenreF1(gs[n - 1], trueCounts, tpCounts, fpCounts)]
  }

  /** Macro list shape: each list has one entry per genre, and entry i scores genre i. */
  lemma {:induction false} MacroListsAligned(gs: seq<string>, n: nat, trueCounts: map<string, nat>, tpCounts: map<string, nat>, fpCounts: map<string, nat>)
    requires n <= |gs| && KnownBefore(gs, n, trueCounts, tpCounts, fpCounts)
    ensures |Precisions(gs, n, tpCounts, fpCounts)| == |Recalls(gs, n, trueCounts, tpCounts)|
         == |F1s(gs, n, trueCounts, tpCounts, fpCounts)| == n
    ensures forall i :: 0 <= i < n ==>
      && Precisions(gs, n, tpCounts, fpCounts)[i] == GenrePrecision(gs[i], tpCounts, fpCounts)
      && Recalls(gs, n, trueCounts, tpCounts)[i] == GenreRecall(gs[i], trueCounts, tpCounts)
      && F1s(gs, n, trueCounts, tpCounts, fpCounts)[i] == GenreF1(gs[i], trueCounts, tpCounts, fpCounts)
  {
    if n > 0 {
      MacroListsAligned(gs, n - 1, trueCounts, tpCounts, fpCounts);
    }
  }

  /** Reference definition of what `calculate_metrics` returns. */
  function Evaluate(genreList: seq<string>, trueCounts: map<string, nat>, tpCounts: map<string, nat>, fpCounts: map<string, nat>)
    : Result<Metrics, MetricsError>
  {
    match FirstMissingFrom(genreList, 0, trueCounts, tpCounts, fpCounts)
    case Some(k) => Failure(MissingGenre(genreList[k]))
    case None =>
      var n := |genreList|;
      var microPrecision := Precision(Sum(genreList, n, tpCounts), Sum(genreList, n, fpCounts));
      var microRecall := Recall(Sum(genreList, n, tpCounts), SumFn(genreList, n, trueCounts, tpCounts));
      Success(Metrics(
        microPrecision,
        microRecall,
        F1(microPrecision, microRecall),
        Precisions(genreList, n, tpCounts, fpCounts),
        Recalls(genreList, n, trueCounts, tpCounts),
        F1s(genreList, n, trueCounts, tpCounts, fpCounts)))
  }

  /** The first failing lookup of the loop is the failure `Evaluate` reports. */
  lemma MissingAt(gs: seq<string>, trueCounts: map<string, nat>, tpCounts: map<string, nat>, fpCounts: map<string, nat>, i: nat)
    requires i < |gs| && !Known(gs[i], trueCounts, tpCounts, fpCounts)
    requires KnownBefore(gs, i, trueCounts, tpCounts, fpCounts)
    ensures Evaluate(gs, trueCounts, tpCounts, fpCounts) == Failure(MissingGenre(gs[i]))
  {
  }

  /**
   * Zero-guard rule for one ratio: with no denominator the ratio is exactly 0; with a
   * positive one it is the quotient, which lies in [0, 1] when the numerator does not exceed
   * the denominator, is 0 exactly when the numerator is, and is 1 exactly when the two are equal.
   */
  lemma RatioBounds(num: int, den: int)
    ensures den <= 0 ==> Ratio(num, den) == 0.0
    ensures den > 0 ==> Ratio(num, den) * den as real == num as real
    ensures 0 <= num <= den ==>
      && 0.0 <= Ratio(num, den) <= 1.0
      && (Ratio(num, den) == 0.0 <==> num == 0)
      && (Ratio(num, den) == 1.0 <==> 0 < num == den)
  {
  }

  lemma DivideBetween(lo: real, x: real, d: real, hi: real)
    requires d > 0.0 && lo * d <= x <= hi * d
    ensures lo <= x / d <= hi
  {
  }

  /**
   * F1 is the harmonic mean of precision and recall: for non-negative arguments it lies
   * between the smaller and the larger, and it is 0 exactly when one of them is.
   */
  lemma F1Between(precision: real, recall: real)
    requires 0.0 <= precision && 0.0 <= recall
    ensures Min(precision, recall) <= F1(precision, recall) <= Max(precision, recall)
    ensures F1(precision, recall) == 0.0 <==> precision == 0.0 || recall == 0.0
  {
    var p, r := precision, recall;
    if p + r > 0.0 {
      var lo, hi := Min(p, r), Max(p, r);
      assert lo * (p + r) <= 2.0 * (p * r) by {
        assert lo * lo <= lo * hi;
      }
      assert 2.0 * (p * r) <= hi * (p + r) by {
        assert lo * hi <= hi * hi;
      }
      DivideBetween(lo, 2.0 * (p * r), p + r, hi);
      if p > 0.0 && r > 0.0 {
        assert p * r > 0.0;
      }
    }
  }

  /** Precision, recall and F1 of counts with tp <= true count all lie in [0, 1]. */
  lemma ScoresInUnitInterval(tp: nat, fp: nat, fn: int)
    requires fn >= 0
    ensures 0.0 <= Precision(tp, fp) <= 1.0
    ensures 0.0 <= Recall(tp, fn) <= 1.0
    ensures 0.0 <= F1(Precision(tp, fp), Recall(tp, fn)) <= 1.0
  {
    RatioBounds(tp, tp + fp);
    RatioBounds(tp, tp + fn);
    F1Between(Precision(tp, fp), Recall(tp, fn));
  }

  /** A genre with no true positives scores 0 for precision, recall and F1, never NaN. */
  lemma NoTruePositivesScoreZero(g: string, trueCounts: map<string, nat>, tpCounts: map<string, nat>, fpCounts: map<string, nat>)
    requires Known(g, trueCounts, tpCounts, fpCounts) && tpCounts[g] == 0
    ensures GenrePrecision(g, tpCounts, fpCounts) == 0.0
    ensures GenreRecall(g, trueCounts, tpCounts) == 0.0
    ensures GenreF1(g, trueCounts, tpCounts, fpCounts) == 0.0
  {
  }

  /** The running fn sum is the summed true counts minus the summed true positives. */
  lemma {:induction false} SumFnIsDifference(gs: seq<string>, n: nat, trueCounts: map<string, nat>, tpCounts: map<string, nat>)
    requires n <= |gs| && forall j :: 0 <= j < n ==> gs[j] in trueCounts && gs[j] in tpCounts
    ensures SumFn(gs, n, trueCounts, tpCounts) == Sum(gs, n, trueCounts) as int - Sum(gs, n, tpCounts)
  {
    if n > 0 {
      SumFnIsDifference(gs, n - 1, trueCounts, tpCounts);
    }
  }

  lemma {:induction false} SumMonotone(gs: seq<string>, n: nat, small: map<string, nat>, large: map<string, nat>)
    requires n <= |gs| && forall j :: 0 <= j < n ==> gs[j] in small && gs[j] in large && small[gs[j]] <= large[gs[j]]
    ensures Sum(gs, n, small) <= Sum(gs, n, large)
  {
    if n > 0 {
      SumMonotone(gs, n - 1, small, large);
    }
  }

  /**
   * Evaluation fails exactly when some genre of the list is missing from a count map,
   * and the error names the first such genre.
   */
  lemma EvaluateFailsOnMissingGenre(gs: seq<string>, trueCounts: map<string, nat>, tpCounts: map<string, nat>, fpCounts: map<string, nat>)
    ensures Evaluate(gs, trueCounts, tpCounts, fpCounts).Failure?
      <==> exists j :: 0 <= j < |gs| && !Known(gs[j], trueCounts, tpCounts, fpCounts)
    ensures Evaluate(gs, trueCounts, tpCounts, fpCounts).Failure? ==>
      exists k :: 0 <= k < |gs| && !Known(gs[k], trueCounts, tpCounts, fpCounts)
        && KnownBefore(gs, k, trueCounts, tpCounts, fpCounts)
        && Evaluate(gs, trueCounts, tpCounts, fpCounts).error == MissingGenre(gs[k])
  {
  }

  /**
   * Micro sums: micro precision is the guarded ratio of summed tp over summed tp + fp, and
   * micro recall the guarded ratio of summed tp over summed true counts; micro F1 combines
   * the two with the same harmonic-mean formula as each genre's F1.
   */
  lemma MicroFromSums(gs: seq<string>, trueCounts: map<string, nat>, tpCounts: map<string, nat>, fpCounts: map<string, nat>)
    requires Evaluate(gs, trueCounts, tpCounts, fpCounts).Success?
    ensures var m := Evaluate(gs, trueCounts, tpCounts, fpCounts).value;
      && m.microPrecision == Ratio(Sum(gs, |gs|, tpCounts), Sum(gs, |gs|, tpCounts) + Sum(gs, |gs|, fpCounts))
      && m.microRecall == Ratio(Sum(gs, |gs|, tpCounts), Sum(gs, |gs|, trueCounts))
      && m.microF1 == F1(m.microPrecision, m.microRecall)
  {
    SumFnIsDifference(gs, |gs|, trueCounts, tpCounts);
  }

  /** Micro precision as a ratio of any two totals the summed tp and tp + fp are known to equal. */
  lemma MicroPrecisionOfTotals(gs: seq<string>, trueCounts: map<string, nat>, tpCounts: map<string, nat>, fpCounts: map<string, nat>,
                               correct: int, total: int)
    requires Evaluate(gs, trueCounts, tpCounts, fpCounts).Success?
    requires Sum(gs, |gs|, tpCounts) == correct && Sum(gs, |gs|, tpCounts) + Sum(gs, |gs|, fpCounts) == total
    ensures Evaluate(gs, trueCounts, tpCounts, fpCounts).value.microPrecision == Ratio(correct, total)
  {
  }

  /**
   * Macro list shape on the result: one entry per genre of the list, entry i scoring
   * genre i.
   */
  lemma MacroShape(gs: seq<string>, trueCounts: map<string, nat>, tpCounts: map<string, nat>, fpCounts: map<string, nat>)
    requires Evaluate(gs, trueCounts, tpCounts, fpCounts).Success?
    ensures var m := Evaluate(gs, trueCounts, tpCounts, fpCounts).value;
      && |m.macroPrecision| == |m.macroRecall| == |m.macroF1| == |gs|
      && forall i :: 0 <= i < |gs| ==>
           && Known(gs[i], trueCounts, tpCounts, fpCounts)
           && m.macroPrecision[i] == GenrePrecision(gs[i], tpCounts, fpCounts)
           && m.macroRecall[i] == GenreRecall(gs[i], trueCounts, tpCounts)
           && m.macroF1[i] == GenreF1(gs[i], trueCounts, tpCounts, fpCounts)
  {
    MacroListsAligned(gs, |gs|, trueCounts, tpCounts, fpCounts);
  }

  /** Bounds: when no genre has more true positives than true count, every score lies in [0, 1]. */
  lemma MetricsInUnitInterval(gs: seq<string>, trueCounts: map<string, nat>, tpCounts: map<string, nat>, fpCounts: map<string, nat>)
    requires Evaluate(gs, trueCounts, tpCounts, fpCounts).Success?
    requires forall g :: g in tpCounts && g in trueCounts ==> tpCounts[g] <= trueCounts[g]
    ensures var m := Evaluate(gs, trueCounts, tpCounts, fpCounts).value;
      && 0.0 <= m.microPrecision <= 1.0 && 0.0 <= m.microRecall <= 1.0 && 0.0 <= m.microF1 <= 1.0
      && (forall i :: 0 <= i < |m.macroPrecision| ==> 0.0 <= m.macroPrecision[i] <= 1.0)
      && (forall i :: 0 <= i < |m.macroRecall| ==> 0.0 <= m.macroRecall[i] <= 1.0)
      && (forall i :: 0 <= i < |m.macroF1| ==> 0.0 <= m.macroF1[i] <= 1.0)
  {
    var m := Evaluate(gs, trueCounts, tpCounts, fpCounts).value;
    MacroShape(gs, trueCounts, tpCounts, fpCounts);
    forall i | 0 <= i < |gs|
      ensures 0.0 <= m.macroPrecision[i] <= 1.0 && 0.0 <= m.macroRecall[i] <= 1.0 && 0.0 <= m.macroF1[i] <= 1.0
    {
      var g := gs[i];
      ScoresInUnitInterval(tpCounts[g], fpCounts[g], trueCounts[g] as int - tpCounts[g]);
    }
    SumMonotone(gs, |gs|, tpCounts, trueCounts);
    SumFnIsDifference(gs, |gs|, trueCounts, tpCounts);
    ScoresInUnitInterval(Sum(gs, |gs|, tpCounts), Sum(gs, |gs|, fpCounts), SumFn(gs, |gs|, trueCounts, tpCounts));
  }

  /**
   * When the true counts are the true-positive counts every fn is 0, so each recall is
   * 1 for a genre with a true positive and 0 otherwise, and so is micro recall for the
   * summed true positives.
   */
  lemma RecallWithoutFalseNegatives(gs: seq<string>, trueCounts: map<string, nat>, tpCounts: map<string, nat>, fpCounts: map<string, nat>)
    requires Evaluate(gs, trueCounts, tpCounts, fpCounts).Success? && trueCounts == tpCounts
    ensures var m := Evaluate(gs, trueCounts, tpCounts, fpCounts).value;
      && |m.macroRecall| == |gs|
      && (forall i :: 0 <= i < |gs| ==>
            gs[i] in tpCounts && m.macroRecall[i] == if tpCounts[gs[i]] > 0 then 1.0 else 0.0)
      && m.microRecall == if Sum(gs, |gs|, tpCounts) > 0 then 1.0 else 0.0
  {
    var m := Evaluate(gs, trueCounts, tpCounts, fpCounts).value;
    MacroShape(gs, trueCounts, tpCounts, fpCounts);
    forall i | 0 <= i < |gs|
      ensures m.macroRecall[i] == if tpCounts[gs[i]] > 0 then 1.0 else 0.0
    {
      RatioBounds(tpCounts[gs[i]], tpCounts[gs[i]]);
    }
    MicroFromSums(gs, trueCounts, tpCounts, fpCounts);
    RatioBounds(Sum(gs, |gs|, tpCounts), Sum(gs, |gs|, tpCounts));
  }

  /** Empty list: no genres give three zero micro scores and three empty lists. */
  lemma EmptyGenreList(trueCounts: map<string, nat>, tpCounts: map<string, nat>, fpCounts: map<string, nat>)
    ensures Evaluate([], trueCounts, tpCounts, fpCounts) == Success(Metrics(0.0, 0.0, 0.0, [], [], []))
  {
  }

  /** The worked example: genres A, B, C with true = {A:2, B:1, C:0}, tp = {A:2, B:0, C:0}, fp = {A:0, B:1, C:0}. */
  lemma WorkedExample()
    ensures Evaluate(["A", "B", "C"], map["A" := 2, "B" := 1, "C" := 0], map["A" := 2, "B" := 0, "C" := 0], map["A" := 0, "B" := 1, "C" := 0])
      == Success(Metrics(2.0 / 3.0, 2.0 / 3.0, 2.0 / 3.0, [1.0, 0.0, 0.0], [1.0, 0.0, 0.0], [1.0, 0.0, 0.0]))
  {
    var gs := ["A", "B", "C"];
    var trueCounts: map<string, nat> := map["A" := 2, "B" := 1, "C" := 0];
    var tpCounts: map<string, nat> := map["A" := 2, "B" := 0, "C" := 0];
    var fpCounts: map<string, nat> := map["A" := 0, "B" := 1, "C" := 0];
    assert FirstMissingFrom(gs, 0, trueCounts, tpCounts, fpCounts) == None;
    assert Sum(gs, 3, tpCounts) == 2 && Sum(gs, 3, fpCounts) == 1 && SumFn(gs, 3, trueCounts, tpCounts) == 1;
    assert Precisions(gs, 3, tpCounts, fpCounts) == [1.0, 0.0, 0.0];
    assert Recalls(gs, 3, trueCounts, tpCounts) == [1.0, 0.0, 0.0];
    assert F1s(gs, 3, trueCounts, tpCounts, fpCounts) == [1.0, 0.0, 0.0];
    assert F1(2.0 / 3.0, 2.0 / 3.0) == 2.0 / 3.0;
  }

  /**
   * The three guarded formulas, written once: the loop applies them to each genre's
   * counts and the end of the function to the micro sums. A zero or negative
   * denominator gives 0 in place of the division.
   */
  method GuardedScores(tp: nat, fp: nat, fn: int) returns (precision: real, recall: real, f1: real)
    ensures precision == Precision(tp, fp)
    ensures recall == Recall(tp, fn)
    ensures f1 == F1(precision, recall)
  {
    if tp + fp > 0 {
      precision := tp as real / (tp + fp) as real;
    } else {
      precision := 0.0;
    }
    if tp + fn > 0 {
      recall := tp as real / (tp + fn) as real;
    } else {
      recall := 0.0;
    }
    if precision + recall > 0.0 {
      f1 := 2.0 * (precision * recall) / (precision + recall);
    } else {
      f1 := 0.0;
    }
  }

  /**
   * `calculate_metrics`: one pass over the genre list with running micro sums and three
   * growing macro lists, then the micro ratios. `modelPred` is accepted and never read.
   */
  method CalculateMetrics(
    modelPred: seq<PredictionRow>,
    genreList: seq<string>,
    genreTrueCounts: map<string, nat>,
    genreTpCounts: map<string, nat>,
    genreFpCounts: map<string, nat>)
    returns (r: Result<Metrics, MetricsError>)
    ensures r == Evaluate(genreList, genreTrueCounts, genreTpCounts, genreFpCounts)
  {
    var microTp: nat, microFp: nat, microFn: int := 0, 0, 0;
    var macroPrecList: seq<real> := [];
    var macroRecallList: seq<real> := [];
    var macroF1List: seq<real> := [];

    var i := 0;
    while i < |genreList|
      invariant 0 <= i <= |genreList|
      invariant KnownBefore(genreList, i, genreTrueCounts, genreTpCounts, genreFpCounts)
      invariant microTp == Sum(genreList, i, genreTpCounts)
      invariant microFp == Sum(genreList, i, genreFpCounts)
      invariant microFn == SumFn(genreList, i, genreTrueCounts, genreTpCounts)
      invariant macroPrecList == Precisions(genreList, i, genreTpCounts, genreFpCounts)
      invariant macroRecallList == Recalls(genreList, i, genreTrueCounts, genreTpCounts)
      invariant macroF1List == F1s(genreList, i, genreTrueCounts, genreTpCounts, genreFpCounts)
    {
      var genre := genreList[i];
      if genre !in genreTpCounts || genre !in genreFpCounts || genre !in genreTrueCounts {
        MissingAt(genreList, genreTrueCounts, genreTpCounts, genreFpCounts, i);
        return Failure(MissingGenre(genre));
      }
      var tp := genreTpCounts[genre];
      var fp := genreFpCounts[genre];
      var fn: int := genreTrueCounts[genre] as int - tp;

      var precision, recall, f1 := GuardedScores(tp, fp, fn);

      macroPrecList := macroPrecList + [precision];
      macroRecallList := macroRecallList + [recall];
      macroF1List := macroF1List + [f1];

      microTp := microTp + tp;
      microFp := microFp + fp;
      microFn := microFn + fn;
      i := i + 1;
    }

    var microPrecision, microRecall, microF1 := GuardedScores(microTp, microFp, microFn);
    r := Success(Metrics(microPrecision, microRecall, microF1, macroPrecList, macroRecallList, macroF1List));
  }
}
