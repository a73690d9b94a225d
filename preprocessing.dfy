/**
 * The per-genre count aggregator (`process_data`).
 *
 * It builds three count maps keyed by every genre of the genre column (true counts,
 * true-positive counts, false-positive counts), all starting at 0, then makes one pass
 * over the prediction rows: a row whose correctness flag equals 1 adds one to the true
 * count and to the true-positive count of its predicted genre, every other row adds one
 * to that genre's false-positive count. A predicted genre that is not a key fails the
 * whole call (Python raises KeyError).
 */
module Preprocessing {
  import opened Outcomes

  /** One row of the prediction table, with the "actual genres" text already parsed. */
  datatype PredictionRow = PredictionRow(actualGenres: set<string>, predicted: string, correct: int)

  /** What `process_data` returns: the genre list and the three count dictionaries. */
  datatype GenreCounts = GenreCounts(
    genreList: seq<string>,
    trueCounts: map<string, nat>,
    tpCounts: map<string, nat>,
    fpCounts: map<string, nat>)

  /** The KeyError raised when a row predicts a genre that has no entry in the count maps. */
  datatype AggregateError = UnknownGenre(genre: string)

  /** The source compares the flag with `== 1`: every other value counts as incorrect. */
  predicate IsCorrect(row: PredictionRow)
  {
    row.correct == 1
  }

  predicate Distinct(gs: seq<string>)
  {
    forall i, j :: 0 <= i < j < |gs| ==> gs[i] != gs[j]
  }

  /** How many of the first `n` rows predict `g` and have correctness `flag`. */
  function Tally(rows: seq<PredictionRow>, n: nat, g: string, flag: bool): (c: nat)
    requires n <= |rows|
    ensures c <= n
  {
    if n == 0 then 0
    else Tally(rows, n - 1, g, flag) + (if rows[n - 1].predicted == g && IsCorrect(rows[n - 1]) == flag then 1 else 0)
  }

  /** How many of the first `n` rows have correctness `flag`, whatever genre they predict. */
  function Flagged(rows: seq<PredictionRow>, n: nat, flag: bool): (c: nat)
    requires n <= |rows|
    ensures c <= n
  {
    if n == 0 then 0
    else Flagged(rows, n - 1, flag) + (if IsCorrect(rows[n - 1]) == flag then 1 else 0)
  }

  /** A map giving 0 to every genre of `genres`: the starting point of every count map. */
  function ZeroCounts(genres: seq<string>): map<string, nat>
  {
    map g | g in genres :: 0
  }

  /**
   * One count map after the first `n` rows, built as the pass builds it: start from
   * `ZeroCounts` and add one at the predicted genre of every row with correctness `flag`.
   */
  function Scan(rows: seq<PredictionRow>, n: nat, genres: seq<string>, flag: bool): map<string, nat>
    requires n <= |rows|
  {
    if n == 0 then ZeroCounts(genres)
    else
      var m := Scan(rows, n - 1, genres, flag);
      var p := rows[n - 1].predicted;
      if p in m && IsCorrect(rows[n - 1]) == flag then m[p := m[p] + 1] else m
  }

  /** The index of the first row at or after `from` whose predicted genre is not in `genres`. */
  function FirstUnknownFrom(rows: seq<PredictionRow>, genres: seq<string>, from: nat): (k: Option<nat>)
    requires from <= |rows|
    ensures k.None? <==> forall i :: from <= i < |rows| ==> rows[i].predicted in genres
    ensures k.Some? ==>
      && from <= k.value < |rows|
      && rows[k.value].predicted !in genres
      && forall i :: from <= i < k.value ==> rows[i].predicted in genres
    decreases |rows| - from
  {
    if from == |rows| then None
    else if rows[from].predicted !in genres then Some(from)
    else FirstUnknownFrom(rows, genres, from + 1)
  }

  /** Reference definition of what `process_data` computes. */
  function Aggregate(rows: seq<PredictionRow>, genreColumn: seq<string>): Result<GenreCounts, AggregateError>
  {
    match FirstUnknownFrom(rows, genreColumn, 0)
    case Some(k) => Failure(UnknownGenre(rows[k].predicted))
    case None =>
      Success(GenreCounts(
        genreColumn,
        Scan(rows, |rows|, genreColumn, true),
        Scan(rows, |rows|, genreColumn, true),
        Scan(rows, |rows|, genreColumn, false)))
  }

  /** The keys of every count map are exactly the genres of the column. */
  lemma {:induction false} ScanKeys(rows: seq<PredictionRow>, n: nat, genres: seq<string>, flag: bool, g: string)
    requires n <= |rows|
    ensures g in Scan(rows, n, genres, flag) <==> g in genres
  {
    if n > 0 {
      ScanKeys(rows, n - 1, genres, flag, g);
    }
  }

  /**
   * While every row read so far predicts a known genre, the entry of each genre is its
   * tally: the number of rows read so far that predict it with correctness `flag`.
   */
  lemma {:induction false} ScanCounts(rows: seq<PredictionRow>, n: nat, genres: seq<string>, flag: bool, g: string)
    requires n <= |rows| && g in genres
    requires forall j :: 0 <= j < n ==> rows[j].predicted in genres
    ensures g in Scan(rows, n, genres, flag)
    ensures Scan(rows, n, genres, flag)[g] == Tally(rows, n, g, flag)
  {
    ScanKeys(rows, n, genres, flag, g);
    if n > 0 {
      ScanCounts(rows, n - 1, genres, flag, g);
      ScanKeys(rows, n - 1, genres, flag, rows[n - 1].predicted);
    }
  }

  /**
   * Nothing else changes: reading row `n` moves only the entry of its own predicted genre,
   * by one, and only in the map of its own correctness.
   */
  lemma RowTouchesOnlyItsGenre(rows: seq<PredictionRow>, n: nat, genres: seq<string>, flag: bool, g: string)
    requires n < |rows| && rows[n].predicted in genres && g in genres
    ensures g in Scan(rows, n, genres, flag) && g in Scan(rows, n + 1, genres, flag)
    ensures Scan(rows, n + 1, genres, flag)[g]
      == Scan(rows, n, genres, flag)[g] + (if g == rows[n].predicted && IsCorrect(rows[n]) == flag then 1 else 0)
  {
    ScanKeys(rows, n, genres, flag, g);
    ScanKeys(rows, n, genres, flag, rows[n].predicted);
    ScanKeys(rows, n + 1, genres, flag, g);
  }

  /**
   * Key coverage: on success the genre list comes back unchanged, each map has exactly
   * the genres of the column as keys, the true counts equal the true-positive counts, and
   * a genre that no row predicts still maps to 0 in all three maps.
   */
  lemma AggregateShape(rows: seq<PredictionRow>, genreColumn: seq<string>)
    requires Aggregate(rows, genreColumn).Success?
    ensures var t := Aggregate(rows, genreColumn).value;
      && t.genreList == genreColumn
      && (forall g :: g in t.trueCounts <==> g in genreColumn)
      && (forall g :: g in t.tpCounts <==> g in genreColumn)
      && (forall g :: g in t.fpCounts <==> g in genreColumn)
      && t.trueCounts == t.tpCounts
      && forall g :: g in genreColumn && (forall i :: 0 <= i < |rows| ==> rows[i].predicted != g) ==>
           t.trueCounts[g] == 0 && t.tpCounts[g] == 0 && t.fpCounts[g] == 0
  {
    forall g ensures g in Scan(rows, |rows|, genreColumn, true) <==> g in genreColumn
      ensures g in Scan(rows, |rows|, genreColumn, false) <==> g in genreColumn
    {
      ScanKeys(rows, |rows|, genreColumn, true, g);
      ScanKeys(rows, |rows|, genreColumn, false, g);
    }
    forall g | g in genreColumn && (forall i :: 0 <= i < |rows| ==> rows[i].predicted != g)
      ensures Scan(rows, |rows|, genreColumn, true)[g] == 0 && Scan(rows, |rows|, genreColumn, false)[g] == 0
    {
      ScanCounts(rows, |rows|, genreColumn, true, g);
      ScanCounts(rows, |rows|, genreColumn, false, g);
      NeverPredictedIsZero(rows, |rows|, g, true);
      NeverPredictedIsZero(rows, |rows|, g, false);
    }
  }

  lemma {:induction false} NeverPredictedIsZero(rows: seq<PredictionRow>, n: nat, g: string, flag: bool)
    requires n <= |rows|
    requires forall i :: 0 <= i < n ==> rows[i].predicted != g
    ensures Tally(rows, n, g, flag) == 0
  {
    if n > 0 {
      NeverPredictedIsZero(rows, n - 1, g, flag);
    }
  }

  /** The indices below `n` of the rows that predict `g` with correctness `flag`. */
  function Matching(rows: seq<PredictionRow>, n: nat, g: string, flag: bool): set<nat>
    requires n <= |rows|
  {
    set i: nat | i < n && rows[i].predicted == g && IsCorrect(rows[i]) == flag
  }

  lemma MatchingStep(rows: seq<PredictionRow>, n: nat, g: string, flag: bool)
    requires 0 < n <= |rows|
    ensures Matching(rows, n, g, flag)
      == if rows[n - 1].predicted == g && IsCorrect(rows[n - 1]) == flag
         then Matching(rows, n - 1, g, flag) + {n - 1}
         else Matching(rows, n - 1, g, flag)
  {
  }

  /** A tally is the number of row indices below `n` that predict `g` with correctness `flag`. */
  lemma {:induction false} TallyIsCardinality(rows: seq<PredictionRow>, n: nat, g: string, flag: bool)
    requires n <= |rows|
    ensures Tally(rows, n, g, flag) == |Matching(rows, n, g, flag)|
  {
    if n > 0 {
      TallyIsCardinality(rows, n - 1, g, flag);
      MatchingStep(rows, n, g, flag);
      assert n - 1 !in Matching(rows, n - 1, g, flag);
    }
  }

  /**
   * Counting exactly: the true-positive count of a genre is the number of rows that predict
   * it with flag 1, its false-positive count the number that predict it with any other flag.
   */
  lemma AggregateCountsExactly(rows: seq<PredictionRow>, genreColumn: seq<string>, g: string)
    requires Aggregate(rows, genreColumn).Success? && g in genreColumn
    ensures var t := Aggregate(rows, genreColumn).value;
      && g in t.tpCounts && g in t.fpCounts
      && t.tpCounts[g] == |set i: nat | i < |rows| && rows[i].predicted == g && rows[i].correct == 1|
      && t.fpCounts[g] == |set i: nat | i < |rows| && rows[i].predicted == g && rows[i].correct != 1|
  {
    ScanCounts(rows, |rows|, genreColumn, true, g);
    ScanCounts(rows, |rows|, genreColumn, false, g);
    TallyIsCardinality(rows, |rows|, g, true);
    TallyIsCardinality(rows, |rows|, g, false);
    assert Matching(rows, |rows|, g, true)
        == (set i: nat | i < |rows| && rows[i].predicted == g && rows[i].correct == 1);
    assert Matching(rows, |rows|, g, false)
        == (set i: nat | i < |rows| && rows[i].predicted == g && rows[i].correct != 1);
  }

  /**
   * A missing genre is an error: the aggregation fails exactly when some row predicts a
   * genre outside the column, and the error names the genre of the first such row.
   */
  lemma AggregateFailsOnUnknownGenre(rows: seq<PredictionRow>, genreColumn: seq<string>)
    ensures Aggregate(rows, genreColumn).Failure?
      <==> exists i :: 0 <= i < |rows| && rows[i].predicted !in genreColumn
    ensures Aggregate(rows, genreColumn).Failure? ==>
      exists k :: 0 <= k < |rows| && rows[k].predicted !in genreColumn
        && (forall i :: 0 <= i < k ==> rows[i].predicted in genreColumn)
        && Aggregate(rows, genreColumn).error == UnknownGenre(rows[k].predicted)
  {
  }

  /** Two tables that agree on every row's predicted genre and flag. */
  predicate SameVerdicts(rows: seq<PredictionRow>, others: seq<PredictionRow>)
  {
    && |rows| == |others|
    && forall i :: 0 <= i < |rows| ==>
         rows[i].predicted == others[i].predicted && rows[i].correct == others[i].correct
  }

  lemma {:induction false} ScanIgnoresActual(rows: seq<PredictionRow>, others: seq<PredictionRow>, n: nat, genres: seq<string>, flag: bool)
    requires SameVerdicts(rows, others) && n <= |rows|
    ensures Scan(rows, n, genres, flag) == Scan(others, n, genres, flag)
  {
    if n > 0 {
      ScanIgnoresActual(rows, others, n - 1, genres, flag);
    }
  }

  /** The actual-genres field of the rows never affects the outcome. */
  lemma AggregateIgnoresActual(rows: seq<PredictionRow>, others: seq<PredictionRow>, genreColumn: seq<string>)
    requires SameVerdicts(rows, others)
    ensures Aggregate(rows, genreColumn) == Aggregate(others, genreColumn)
  {
    ScanIgnoresActual(rows, others, |rows|, genreColumn, true);
    ScanIgnoresActual(rows, others, |rows|, genreColumn, false);
    assert FirstUnknownFrom(rows, genreColumn, 0) == FirstUnknownFrom(others, genreColumn, 0);
  }

  /** How many times `g` occurs among the first `k` genres of `gs`. */
  function Occurrences(gs: seq<string>, k: nat, g: string): (c: nat)
    requires k <= |gs|
    ensures c <= k
  {
    if k == 0 then 0 else Occurrences(gs, k - 1, g) + (if gs[k - 1] == g then 1 else 0)
  }

  /** In a duplicate-free list a genre occurs once if it is among the first `k`, else never. */
  lemma {:induction false} OccursAtMostOnce(gs: seq<string>, k: nat, g: string)
    requires Distinct(gs) && k <= |gs|
    ensures Occurrences(gs, k, g) == if exists j :: 0 <= j < k && gs[j] == g then 1 else 0
  {
    if k > 0 {
      OccursAtMostOnce(gs, k - 1, g);
    }
  }

  /** The sum of a count map's entries over the first `k` genres of the list; a missing key adds 0. */
  function Sum(gs: seq<string>, k: nat, counts: map<string, nat>): nat
    requires k <= |gs|
  {
    if k == 0 then 0 else Sum(gs, k - 1, counts) + (if gs[k - 1] in counts then counts[gs[k - 1]] else 0)
  }

  lemma {:induction false} SumIncrement(gs: seq<string>, k: nat, counts: map<string, nat>, p: string)
    requires k <= |gs| && p in counts
    ensures Sum(gs, k, counts[p := counts[p] + 1]) == Sum(gs, k, counts) + Occurrences(gs, k, p)
  {
    if k > 0 {
      SumIncrement(gs, k - 1, counts, p);
    }
  }

  lemma {:induction false} SumOfZeroCounts(gs: seq<string>, k: nat, genres: seq<string>)
    requires k <= |gs|
    ensures Sum(gs, k, ZeroCounts(genres)) == 0
  {
    if k > 0 {
      SumOfZeroCounts(gs, k - 1, genres);
    }
  }

  /**
   * Over a duplicate-free genre column that covers every row read so far, a count map
   * sums to the number of those rows with its correctness flag.
   */
  lemma {:induction false} ScanTotal(rows: seq<PredictionRow>, n: nat, genres: seq<string>, flag: bool)
    requires n <= |rows| && Distinct(genres)
    requires forall j :: 0 <= j < n ==> rows[j].predicted in genres
    ensures Sum(genres, |genres|, Scan(rows, n, genres, flag)) == Flagged(rows, n, flag)
  {
    if n == 0 {
      SumOfZeroCounts(genres, |genres|, genres);
    } else {
      var p := rows[n - 1].predicted;
      ScanTotal(rows, n - 1, genres, flag);
      ScanKeys(rows, n - 1, genres, flag, p);
      if IsCorrect(rows[n - 1]) == flag {
        SumIncrement(genres, |genres|, Scan(rows, n - 1, genres, flag), p);
        OccursAtMostOnce(genres, |genres|, p);
      }
    }
  }

  lemma {:induction false} FlaggedPartition(rows: seq<PredictionRow>, n: nat)
    requires n <= |rows|
    ensures Flagged(rows, n, true) + Flagged(rows, n, false) == n
  {
    if n > 0 {
      FlaggedPartition(rows, n - 1);
    }
  }

  /**
   * Conservation: each row adds one to exactly one map at exactly one genre, so over a
   * duplicate-free genre column the true-positive map sums to the number of correct rows
   * and the true-positive and false-positive maps together sum to the number of rows.
   */
  lemma RowsConserved(rows: seq<PredictionRow>, genreColumn: seq<string>)
    requires Distinct(genreColumn) && Aggregate(rows, genreColumn).Success?
    ensures var t := Aggregate(rows, genreColumn).value;
      && Sum(genreColumn, |genreColumn|, t.tpCounts) == Flagged(rows, |rows|, true)
      && Sum(genreColumn, |genreColumn|, t.tpCounts) + Sum(genreColumn, |genreColumn|, t.fpCounts) == |rows|
  {
    ScanTotal(rows, |rows|, genreColumn, true);
    ScanTotal(rows, |rows|, genreColumn, false);
    FlaggedPartition(rows, |rows|);
  }

  /** The first failing lookup of the scan is the failure `Aggregate` reports. */
  lemma UnknownAt(rows: seq<PredictionRow>, i: nat, genres: seq<string>)
    requires i < |rows| && rows[i].predicted !in genres
    requires forall j :: 0 <= j < i ==> rows[j].predicted in genres
    ensures Aggregate(rows, genres) == Failure(UnknownGenre(rows[i].predicted))
  {
  }

  /**
   * `process_data`: zero-initialised maps over the genre column, then one pass over the
   * rows. The actual-genres field of a row is never consulted.
   */
  method ProcessData(modelPred: seq<PredictionRow>, genreColumn: seq<string>)
    returns (r: Result<GenreCounts, AggregateError>)
    ensures r == Aggregate(modelPred, genreColumn)
  {
    var genreList := genreColumn;
    var genreTrueCounts := ZeroCounts(genreList);
    var genreTpCounts := ZeroCounts(genreList);
    var genreFpCounts := ZeroCounts(genreList);

    var i := 0;
    while i < |modelPred|
      invariant 0 <= i <= |modelPred|
      invariant forall j :: 0 <= j < i ==> modelPred[j].predicted in genreList
      invariant genreTrueCounts == Scan(modelPred, i, genreList, true)
      invariant genreTpCounts == genreTrueCounts
      invariant genreFpCounts == Scan(modelPred, i, genreList, false)
    {
      var row := modelPred[i];
      var predictedGenre := row.predicted;
      var correct := row.correct;
      if correct == 1 {
        ScanKeys(modelPred, i, genreList, true, predictedGenre);
        if predictedGenre !in genreTrueCounts {
          UnknownAt(modelPred, i, genreList);
          return Failure(UnknownGenre(predictedGenre));
        }
        genreTrueCounts := genreTrueCounts[predictedGenre := genreTrueCounts[predictedGenre] + 1];
        genreTpCounts := genreTpCounts[predictedGenre := genreTpCounts[predictedGenre] + 1];
      } else {
        ScanKeys(modelPred, i, genreList, false, predictedGenre);
        if predictedGenre !in genreFpCounts {
          UnknownAt(modelPred, i, genreList);
          return Failure(UnknownGenre(predictedGenre));
        }
        genreFpCounts := genreFpCounts[predictedGenre := genreFpCounts[predictedGenre] + 1];
      }
      i := i + 1;
    }
    r := Success(GenreCounts(genreList, genreTrueCounts, genreTpCounts, genreFpCounts));
  }
}
