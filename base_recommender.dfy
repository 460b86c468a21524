/**
 * What every recommender shares: the clamping of predictions to the rating
 * scale, the baseline prediction (the user's mean rating) and the evaluation of
 * a recommender's predictions over the test pairs.
 */
module Base {
  import opened Sparse
  import opened Dao

  /** A predicted rating, or negative infinity when no prediction can be made. */
  datatype Prediction = NegativeInfinity | Finite(value: real)

  /** The lowest and highest rating on the scale. */
  const MIN_RATING: real := 1.0
  const MAX_RATING: real := 5.0

  /**
   * The square root as the recommenders use it: `Math.sqrt` is not modelled,
   * each computation that needs it takes some function meeting this predicate.
   * The predicate asks for an exact square (`sqrt(x) * sqrt(x) == x`), which a
   * rounded floating-point root does not give.
   */
  ghost predicate IsSqrt(sqrt: real -> real)
  {
    && sqrt(0.0) == 0.0
    && forall x :: 0.0 <= x ==> 0.0 <= sqrt(x) && sqrt(x) * sqrt(x) == x
  }

  /** ceilPrediction: a prediction clipped to the rating scale. */
  function CeilPrediction(prediction: real): (r: real)
    ensures MIN_RATING <= r <= MAX_RATING
    ensures MIN_RATING <= prediction <= MAX_RATING ==> r == prediction
    ensures prediction > MAX_RATING ==> r == MAX_RATING
    ensures prediction < MIN_RATING ==> r == MIN_RATING
  {
    if prediction > MAX_RATING then MAX_RATING
    else if prediction < MIN_RATING then MIN_RATING
    else prediction
  }

  /** Clipping twice clips once: a clipped prediction is on the scale, where clipping changes nothing. */
  lemma CeilPredictionIdempotent(prediction: real)
    ensures CeilPrediction(CeilPrediction(prediction)) == CeilPrediction(prediction)
  {
  }

  /** The recommender that predicts a user's mean rating for every item. */
  class BaseRecommender {
    const dao: DAO

    constructor (dao: DAO)
      ensures this.dao == dao
    {
      this.dao := dao;
    }

    /** train: the baseline learns nothing, and its empty frame says that nothing changes. */
    method Train()
    {
    }

    /**
     * predict: the user's mean training rating whatever the item is, 3.5 for a
     * user without training lines; never negative infinity.
     */
    function Predict(user: Id, item: Id): (p: Prediction)
      reads dao
      requires dao.Valid()
      ensures p.Finite?
      ensures user !in UsersOf(dao.trainLines) ==> p.value == DEFAULT_MEAN
      ensures user in UsersOf(dao.trainLines) ==>
                |UserView(dao.trainLines)[user]| >= 1 &&
                p.value == UserRatingSum(dao.trainLines, user) / |UserView(dao.trainLines)[user]| as real
    {
      UserMeanOfLines(dao.trainLines, user);
      Finite(GetMeanRating(dao.userMeanRatings, user))
    }
  }

  // ---------------------------------------------------------------------------
  // Evaluation
  // ---------------------------------------------------------------------------

  /** The (row, column) cells of the given rows of a sparse table. */
  ghost function Cells(m: Matrix, rows: set<Id>): set<(Id, Id)>
  {
    set x, y | x in rows && x in m && y in m[x] :: (x, y)
  }

  /** The cells of row `x` at the given columns. */
  ghost function RowCells(x: Id, cols: set<Id>): set<(Id, Id)>
  {
    set y | y in cols :: (x, y)
  }

  lemma CellsAddRow(m: Matrix, rows: set<Id>, x: Id)
    requires x in m && x !in rows
    ensures Cells(m, rows + {x}) == Cells(m, rows) + RowCells(x, m[x].Keys)
    ensures Cells(m, rows) !! RowCells(x, m[x].Keys)
  {
  }

  lemma RowCellsAdd(x: Id, cols: set<Id>, y: Id)
    ensures RowCells(x, cols + {y}) == RowCells(x, cols) + {(x, y)}
    ensures y !in cols ==> (x, y) !in RowCells(x, cols)
  {
  }

  /** The pairs among `pairs` for which the recommender makes a prediction. */
  ghost function CoveredOf(pairs: set<(Id, Id)>, predict: (Id, Id) -> Prediction): set<(Id, Id)>
  {
    set p | p in pairs && predict(p.0, p.1).Finite?
  }

  lemma CoveredOfAdd(pairs: set<(Id, Id)>, predict: (Id, Id) -> Prediction, p: (Id, Id))
    ensures CoveredOf(pairs + {p}, predict)
            == CoveredOf(pairs, predict) + (if predict(p.0, p.1).Finite? then {p} else {})
  {
  }

  /** The test pairs for which the recommender makes a prediction. */
  ghost function Covered(testData: Matrix, predict: (Id, Id) -> Prediction): set<(Id, Id)>
  {
    CoveredOf(Cells(testData, testData.Keys), predict)
  }

  function Abs(x: real): real
  {
    if x < 0.0 then -x else x
  }

  /** The error of the prediction for a covered test pair. */
  ghost function Error(testData: Matrix, predict: (Id, Id) -> Prediction, p: (Id, Id)): real
    requires p in Covered(testData, predict)
  {
    predict(p.0, p.1).value - testData[p.0][p.1]
  }

  /** Absolute error per covered test pair. */
  ghost function AbsErrors(testData: Matrix, predict: (Id, Id) -> Prediction): map<(Id, Id), real>
  {
    map p | p in Covered(testData, predict) :: Abs(Error(testData, predict, p))
  }

  /** Squared error per covered test pair. */
  ghost function SquaredErrors(testData: Matrix, predict: (Id, Id) -> Prediction): map<(Id, Id), real>
  {
    map p | p in Covered(testData, predict) :: Error(testData, predict, p) * Error(testData, predict, p)
  }

  /** What the evaluation reports: no coverage at all, or coverage in percent with MAE and RMSE. */
  datatype Report = NoCoverage | Report(coverage: real, mae: real, rmse: real)

  /** Pairs of the table for which a prediction is made have their errors defined. */
  lemma CoveredWithin(testData: Matrix, predict: (Id, Id) -> Prediction, done: set<(Id, Id)>)
    requires forall p :: p in done ==> p.0 in testData && p.1 in testData[p.0]
    ensures CoveredOf(done, predict) <= Covered(testData, predict)
    ensures CoveredOf(done, predict) <= AbsErrors(testData, predict).Keys
    ensures CoveredOf(done, predict) <= SquaredErrors(testData, predict).Keys
  {
    forall p | p in CoveredOf(done, predict)
      ensures p in Covered(testData, predict)
    {
      var x, y := p.0, p.1;
      assert x in testData.Keys && x in testData && y in testData[x];
      assert (x, y) in Cells(testData, testData.Keys);
    }
  }

  /** The summed absolute error is never negative. */
  lemma AbsErrorsNonNegative(testData: Matrix, predict: (Id, Id) -> Prediction)
    ensures Covered(testData, predict) <= AbsErrors(testData, predict).Keys
    ensures 0.0 <= SetSum(Covered(testData, predict), AbsErrors(testData, predict))
  {
    var absErrors := AbsErrors(testData, predict);
    assert forall p :: p in Covered(testData, predict) ==> 0.0 <= absErrors[p];
    SetSumNonNegative(Covered(testData, predict), absErrors);
  }

  /** The summed squared error is never negative. */
  lemma SquaredErrorsNonNegative(testData: Matrix, predict: (Id, Id) -> Prediction)
    ensures Covered(testData, predict) <= SquaredErrors(testData, predict).Keys
    ensures 0.0 <= SetSum(Covered(testData, predict), SquaredErrors(testData, predict))
  {
    var squaredErrors := SquaredErrors(testData, predict);
    assert forall p :: p in Covered(testData, predict) ==> 0.0 <= squaredErrors[p];
    SetSumNonNegative(Covered(testData, predict), squaredErrors);
  }

  /** A positive part of a total is more than 0 and at most 100 percent of it. */
  lemma PercentageBounds(part: int, total: int)
    requires 0 < part <= total
    ensures 0.0 < part as real * 100.0 / total as real <= 100.0
  {
    var p, t := part as real, total as real;
    assert p * 100.0 <= t * 100.0;
  }

  lemma QuotientNonNegative(a: real, b: real)
    requires 0.0 <= a && 0.0 < b
    ensures 0.0 <= a / b
  {
  }

  /**
   * The running counters of evaluate after the test pairs `done`: every pair
   * counted, the covered ones counted again and their errors summed.
   */
  ghost predicate Tallies(testData: Matrix, predict: (Id, Id) -> Prediction, done: set<(Id, Id)>,
                          countTotal: int, countRatings: int, mae: real, rmse: real)
  {
    && (forall p :: p in done ==> p.0 in testData && p.1 in testData[p.0])
    && countTotal == |done| && countRatings <= countTotal
    && countRatings == |CoveredOf(done, predict)|
    && (CoveredWithin(testData, predict, done);
        mae == SetSum(CoveredOf(done, predict), AbsErrors(testData, predict)))
    && rmse == SetSum(CoveredOf(done, predict), SquaredErrors(testData, predict))
  }

  /** Counting a test pair that has no prediction keeps the tallies. */
  lemma TallySkip(testData: Matrix, predict: (Id, Id) -> Prediction, done: set<(Id, Id)>,
                  countTotal: int, countRatings: int, mae: real, rmse: real, user: Id, item: Id)
    requires Tallies(testData, predict, done, countTotal, countRatings, mae, rmse)
    requires user in testData && item in testData[user] && (user, item) !in done
    requires predict(user, item).NegativeInfinity?
    ensures Tallies(testData, predict, done + {(user, item)}, countTotal + 1, countRatings, mae, rmse)
  {
    CoveredOfAdd(done, predict, (user, item));
  }

  /** Counting a covered test pair and summing its errors keeps the tallies. */
  lemma TallyCover(testData: Matrix, predict: (Id, Id) -> Prediction, done: set<(Id, Id)>,
                   countTotal: int, countRatings: int, mae: real, rmse: real, user: Id, item: Id, tmp: real)
    requires Tallies(testData, predict, done, countTotal, countRatings, mae, rmse)
    requires user in testData && item in testData[user] && (user, item) !in done
    requires predict(user, item).Finite? && tmp == predict(user, item).value - testData[user][item]
    ensures Tallies(testData, predict, done + {(user, item)}, countTotal + 1, countRatings + 1,
                    mae + Abs(tmp), rmse + tmp * tmp)
  {
    var p := (user, item);
    var covered := CoveredOf(done, predict);
    CoveredWithin(testData, predict, done);
    var absErrors, squaredErrors := AbsErrors(testData, predict), SquaredErrors(testData, predict);
    CoveredOfAdd(done, predict, p);
    assert CoveredOf(done + {p}, predict) == covered + {p};
    assert p in Covered(testData, predict) && p !in covered;
    assert absErrors[p] == Abs(tmp) && squaredErrors[p] == tmp * tmp;
    SetSumAdd(covered, absErrors, p);
    SetSumAdd(covered, squaredErrors, p);
    assert |covered + {p}| == |covered| + 1;
  }

  /** One test pair of evaluate: counted, and when predicted, counted as covered with its errors summed. */
  method EvaluatePair(testData: Matrix, predict: (Id, Id) -> Prediction, user: Id, item: Id,
                      ghost done: set<(Id, Id)>, countTotal0: int, countRatings0: int, mae0: real, rmse0: real)
      returns (countTotal: int, countRatings: int, mae: real, rmse: real)
    requires user in testData && item in testData[user] && (user, item) !in done
    requires Tallies(testData, predict, done, countTotal0, countRatings0, mae0, rmse0)
    ensures Tallies(testData, predict, done + {(user, item)}, countTotal, countRatings, mae, rmse)
  {
    countTotal, countRatings, mae, rmse := countTotal0, countRatings0, mae0, rmse0;
    var p := predict(user, item);
    if p.Finite? {
      var r := testData[user][item];
      var tmp := p.value - r;
      TallyCover(testData, predict, done, countTotal, countRatings, mae, rmse, user, item, tmp);
      countRatings := countRatings + 1;
      mae := mae + Abs(tmp);
      rmse := rmse + tmp * tmp;
    } else {
      TallySkip(testData, predict, done, countTotal, countRatings, mae, rmse, user, item);
    }
    countTotal := countTotal + 1;
  }

  /** A column not yet seen in a row gives a cell not yet counted. */
  lemma NextCell(done0: set<(Id, Id)>, x: Id, seen: set<Id>, y: Id, cols: set<Id>)
    requires done0 !! RowCells(x, cols) && seen <= cols && y in cols && y !in seen
    ensures (x, y) !in done0 + RowCells(x, seen)
    ensures done0 + RowCells(x, seen) + {(x, y)} == done0 + RowCells(x, seen + {y})
  {
    RowCellsAdd(x, seen, y);
    assert (x, y) in RowCells(x, cols);
  }

  /** The inner loop of evaluate: the test items of one user. */
  method EvaluateUser(testData: Matrix, predict: (Id, Id) -> Prediction, user: Id, ghost done0: set<(Id, Id)>,
                      countTotal0: int, countRatings0: int, mae0: real, rmse0: real)
      returns (countTotal: int, countRatings: int, mae: real, rmse: real, ghost done: set<(Id, Id)>)
    requires user in testData && done0 !! RowCells(user, testData[user].Keys)
    requires Tallies(testData, predict, done0, countTotal0, countRatings0, mae0, rmse0)
    ensures done == done0 + RowCells(user, testData[user].Keys)
    ensures Tallies(testData, predict, done, countTotal, countRatings, mae, rmse)
  {
    countTotal, countRatings, mae, rmse, done := countTotal0, countRatings0, mae0, rmse0, done0;
    var items := testData[user].Keys;
    ghost var seen: set<Id> := {};
    while items != {}
      invariant seen !! items && seen + items == testData[user].Keys
      invariant done == done0 + RowCells(user, seen)
      invariant Tallies(testData, predict, done, countTotal, countRatings, mae, rmse)
      decreases items
    {
      var item := Choose(items);
      NextCell(done0, user, seen, item, testData[user].Keys);
      countTotal, countRatings, mae, rmse :=
        EvaluatePair(testData, predict, user, item, done, countTotal, countRatings, mae, rmse);
      done := done + {(user, item)};
      seen := seen + {item};
      items := items - {item};
    }
    assert seen == testData[user].Keys;
  }

  /** The loops of evaluate: over the test users, and over each one's test items. */
  method TallyTestPairs(testData: Matrix, predict: (Id, Id) -> Prediction)
      returns (countTotal: int, countRatings: int, mae: real, rmse: real)
    ensures Tallies(testData, predict, Cells(testData, testData.Keys), countTotal, countRatings, mae, rmse)
  {
    mae, rmse := 0.0, 0.0;
    countRatings, countTotal := 0, 0;
    ghost var done: set<(Id, Id)> := {};
    ghost var seen: set<Id> := {};
    var users := testData.Keys;
    while users != {}
      invariant seen !! users && seen + users == testData.Keys
      invariant done == Cells(testData, seen)
      invariant Tallies(testData, predict, done, countTotal, countRatings, mae, rmse)
      decreases users
    {
      var user := Choose(users);
      CellsAddRow(testData, seen, user);
      countTotal, countRatings, mae, rmse, done :=
        EvaluateUser(testData, predict, user, done, countTotal, countRatings, mae, rmse);
      seen := seen + {user};
      users := users - {user};
    }
    assert seen == testData.Keys;
  }

  /**
   * evaluate: every test pair is counted, a prediction of negative infinity is
   * skipped, and the absolute and squared errors of the others are summed; the
   * report divides by the number of covered pairs only when there is one.
   * `predict` is the recommender's own prediction; `sqrt` stands for Math.sqrt.
   */
  method Evaluate(testData: Matrix, predict: (Id, Id) -> Prediction, sqrt: real -> real)
      returns (countTotal: int, countRatings: int, report: Report)
    requires IsSqrt(sqrt)
    ensures countTotal == |Cells(testData, testData.Keys)|
    ensures countRatings == |Covered(testData, predict)| && countRatings <= countTotal
    ensures countRatings == 0 <==> report == NoCoverage
    ensures countRatings > 0 ==>
              var covered := Covered(testData, predict);
              && report.coverage == countRatings as real * 100.0 / countTotal as real
              && report.mae == SetSum(covered, AbsErrors(testData, predict)) / countRatings as real
              && report.rmse == sqrt(SetSum(covered, SquaredErrors(testData, predict)) / countRatings as real)
              && 0.0 < report.coverage <= 100.0
              && 0.0 <= report.mae
              && 0.0 <= report.rmse
  {
    var mae, rmse;
    countTotal, countRatings, mae, rmse := TallyTestPairs(testData, predict);
    ghost var covered := Covered(testData, predict);
    CoveredWithin(testData, predict, Cells(testData, testData.Keys));
    assert mae == SetSum(covered, AbsErrors(testData, predict));
    assert rmse == SetSum(covered, SquaredErrors(testData, predict));
    if countRatings == 0 {
      report := NoCoverage;
    } else {
      AbsErrorsNonNegative(testData, predict);
      SquaredErrorsNonNegative(testData, predict);
      var n := countRatings as real;
      QuotientNonNegative(mae, n);
      QuotientNonNegative(rmse, n);
      PercentageBounds(countRatings, countTotal);
      report := Report(countRatings as real * 100.0 / countTotal as real, mae / n, sqrt(rmse / n));
    }
  }
}
