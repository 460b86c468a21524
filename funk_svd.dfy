/**
 * Simon Funk's SVD recommender: one user-feature map and one item-feature map
 * per feature, pseudo-averages that blend each user's and item's mean with a
 * prior, a global average, and training by stochastic gradient steps, one
 * feature after the other.
 */
module FunkSVD {
  import opened Sparse
  import opened Dao
  import opened Base

  /** The prior every pseudo-average is blended with: 25 virtual ratings of 3.23. */
  const PRIOR_MEAN: real := 3.23
  const PRIOR_WEIGHT: real := 25.0

  /** A root-mean-square error, or NaN when it was computed as 0.0 / 0. */
  datatype Measured = Number(value: real) | NotANumber

  /**
   * `rmse <= rmse_last - MIN_IMPROVEMENT` with Java's double comparison: any
   * comparison involving NaN is false.
   */
  predicate Improving(rmse: Measured, rmseLast: Measured, minImprovement: real)
  {
    rmse.Number? && rmseLast.Number? && rmse.value <= rmseLast.value - minImprovement
  }

  // ---------------------------------------------------------------------------
  // Pseudo-averages and the global average
  // ---------------------------------------------------------------------------

  /** The pseudo-average of `count` ratings that sum to `sum`. */
  function PseudoAverage(sum: real, count: nat): real
  {
    (PRIOR_MEAN * PRIOR_WEIGHT + sum) / (PRIOR_WEIGHT + count as real)
  }

  /** The number of ratings in every row of a view. */
  function RowSizes(view: Matrix): (sizes: map<Id, nat>)
    ensures sizes.Keys == view.Keys
  {
    map x | x in view :: |view[x]|
  }

  /** `ratingSum` in computeAvgs: a row's mean times the number of ratings in the row. */
  function RowSum(mean: real, count: nat): real
  {
    mean * count as real
  }

  /** Every row's `ratingSum`, from the rows' means and sizes. */
  function RatingSums(sizes: map<Id, nat>, means: map<Id, real>): (sums: map<Id, real>)
    ensures sums.Keys == sizes.Keys
  {
    map x | x in sizes :: RowSum(GetMeanRating(means, x), sizes[x])
  }

  /** Every row's pseudo-average, from the rows' means and sizes. */
  function PseudoAverages(sizes: map<Id, nat>, means: map<Id, real>): (avgs: map<Id, real>)
    ensures avgs.Keys == sizes.Keys
  {
    map x | x in sizes :: PseudoAverage(RowSum(GetMeanRating(means, x), sizes[x]), sizes[x])
  }

  /** The sum of the ratings on all lines. */
  ghost function RatingTotal(ts: seq<Triple>): real
    decreases |ts|
  {
    if ts == [] then 0.0 else RatingTotal(Init(ts)) + Last(ts).rating
  }

  /** Each user's rating sum over all of the user's lines. */
  ghost function LineSums(ts: seq<Triple>): (sums: map<Id, real>)
    ensures sums.Keys == UsersOf(ts)
  {
    map u | u in UsersOf(ts) :: UserRatingSum(ts, u)
  }

  /** A mean times its count gives back the sum. */
  lemma MeanTimesCount(sum: real, count: nat)
    requires 1 <= count
    ensures RowSum(sum / count as real, count) == sum
  {
  }

  lemma ProductSign(x: real, d: real)
    requires 0.0 < d && 0.0 <= x * d
    ensures 0.0 <= x
  {
  }

  /**
   * A pseudo-average lies between the prior 3.23 and the row's own mean, and
   * is the prior itself for a row without ratings.
   */
  lemma PseudoAverageBlend(mean: real, count: nat)
    ensures count == 0 ==> PseudoAverage(RowSum(mean, count), count) == PRIOR_MEAN
    ensures PRIOR_MEAN <= mean ==> PRIOR_MEAN <= PseudoAverage(RowSum(mean, count), count) <= mean
    ensures mean <= PRIOR_MEAN ==> mean <= PseudoAverage(RowSum(mean, count), count) <= PRIOR_MEAN
  {
    var n := count as real;
    var d := PRIOR_WEIGHT + n;
    var a := PseudoAverage(RowSum(mean, count), count);
    assert a * d == PRIOR_MEAN * PRIOR_WEIGHT + mean * n;
    assert (a - PRIOR_MEAN) * d == n * (mean - PRIOR_MEAN);
    assert (mean - a) * d == PRIOR_WEIGHT * (mean - PRIOR_MEAN);
    if PRIOR_MEAN <= mean {
      ProductSign(a - PRIOR_MEAN, d);
      ProductSign(mean - a, d);
    } else {
      ProductSign(PRIOR_MEAN - a, d);
      ProductSign(a - mean, d);
    }
  }

  /**
   * A user's pseudo-average is 3.23 * 25 plus the ratings on all the user's
   * lines, over 25 plus the number of distinct items the user rated.
   */
  lemma UserPseudoAverageOfLines(ts: seq<Triple>, user: Id)
    requires user in UsersOf(ts)
    ensures user in UserView(ts) && user in PseudoAverages(RowSizes(UserView(ts)), UserMeans(ts))
    ensures PseudoAverages(RowSizes(UserView(ts)), UserMeans(ts))[user]
            == PseudoAverage(UserRatingSum(ts, user), |UserView(ts)[user]|)
  {
    UserMeanOfLines(ts, user);
    var count := |UserView(ts)[user]|;
    MeanTimesCount(UserRatingSum(ts, user), count);
    assert RowSizes(UserView(ts))[user] == count;
    assert RowSum(GetMeanRating(UserMeans(ts), user), count) == UserRatingSum(ts, user);
  }

  /** Each user's `ratingSum` (mean times distinct items) is the sum of the user's lines. */
  lemma RatingSumsOfLines(ts: seq<Triple>)
    ensures RatingSums(RowSizes(UserView(ts)), UserMeans(ts)) == LineSums(ts)
  {
    var sums, lines := RatingSums(RowSizes(UserView(ts)), UserMeans(ts)), LineSums(ts);
    UserViewShape(ts);
    forall u | u in sums
      ensures u in lines && sums[u] == lines[u]
    {
      RatingSumOfLines(ts, u);
    }
    assert forall u :: u in lines ==> u in sums;
    MapsEqual(sums, lines);
  }

  /** One user's `ratingSum` is the sum of the ratings on the user's lines. */
  lemma RatingSumOfLines(ts: seq<Triple>, user: Id)
    requires user in UserView(ts)
    ensures RatingSums(RowSizes(UserView(ts)), UserMeans(ts))[user] == UserRatingSum(ts, user)
  {
    UserMeanOfLines(ts, user);
    MeanTimesCount(UserRatingSum(ts, user), |UserView(ts)[user]|);
  }

  /** Summed over the users, the per-user line sums give the sum of all ratings. */
  lemma {:induction false} LineSumsTotal(ts: seq<Triple>)
    ensures SetSum(UsersOf(ts), LineSums(ts)) == RatingTotal(ts)
    decreases |ts|
  {
    if ts == [] {
      assert UsersOf(ts) == {};
    } else {
      var init, t := Init(ts), Last(ts);
      LineSumsTotal(init);
      SnocSets(ts);
      SumsShape(init);
      SumsOfLines(init);
      var s0, f0, f := UsersOf(init), LineSums(init), LineSums(ts);
      assert forall u :: u in s0 && u != t.user ==> f[u] == f0[u];
      if t.user in s0 {
        SetSumRemove(s0, f, t.user);
        SetSumRemove(s0, f0, t.user);
        SetSumCongruent(s0 - {t.user}, f, f0);
        assert UsersOf(ts) == s0;
      } else {
        assert UserRatingSum(init, t.user) == 0.0;
        SetSumCongruent(s0, f, f0);
        SetSumAdd(s0, f, t.user);
      }
    }
  }

  /**
   * The global accumulator of computeAvgs, the users' `ratingSum`s added up,
   * is the sum of all training ratings.
   */
  lemma GlobalSumOfLines(ts: seq<Triple>)
    ensures SetSum(UserView(ts).Keys, RatingSums(RowSizes(UserView(ts)), UserMeans(ts))) == RatingTotal(ts)
  {
    UserViewShape(ts);
    RatingSumsOfLines(ts);
    LineSumsTotal(ts);
  }

  /**
   * What the loops of computeAvgs compute on the (possibly normalised) views
   * is what the training lines give: the same pseudo-averages, and a global
   * accumulator equal to the sum of all ratings.
   */
  lemma AveragesOfLines(ts: seq<Triple>, view: Matrix, transposed: Matrix,
                        userMeans: map<Id, real>, itemMeans: map<Id, real>, total: real)
    requires SameShape(view, UserView(ts)) && SameShape(transposed, ItemView(ts))
    requires userMeans == UserMeans(ts) && itemMeans == ItemMeans(ts)
    requires total == SetSum(view.Keys, RatingSums(RowSizes(view), userMeans))
    ensures PseudoAverages(RowSizes(view), userMeans) == PseudoAverages(RowSizes(UserView(ts)), UserMeans(ts))
    ensures PseudoAverages(RowSizes(transposed), itemMeans) == PseudoAverages(RowSizes(ItemView(ts)), ItemMeans(ts))
    ensures PseudoAverages(RowSizes(view), userMeans).Keys == UsersOf(ts)
    ensures PseudoAverages(RowSizes(transposed), itemMeans).Keys == ItemsOf(ts)
    ensures total == RatingTotal(ts)
  {
    SameShapeSizes(view, UserView(ts));
    SameShapeSizes(transposed, ItemView(ts));
    GlobalSumOfLines(ts);
    BuildShape(ts);
  }

  /** Row sizes depend only on the rows' keys, so (de)normalisation leaves them alone. */
  lemma SameShapeSizes(a: Matrix, b: Matrix)
    requires SameShape(a, b)
    ensures RowSizes(a) == RowSizes(b)
  {
    assert forall x :: x in a ==> |a[x]| == |b[x]|;
  }

  /**
   * One of the two loops of computeAvgs: for every row, `ratingSum` is the
   * row's mean times its size, added to the running total, and the row's
   * pseudo-average is put. The item loop does not use the total.
   */
  method AverageRows(view: Matrix, means: map<Id, real>) returns (avgs: map<Id, real>, total: real)
    ensures avgs == PseudoAverages(RowSizes(view), means)
    ensures total == SetSum(view.Keys, RatingSums(RowSizes(view), means))
  {
    ghost var sizes := RowSizes(view);
    avgs, total := AverageLoop(view, means, RatingSums(sizes, means), PseudoAverages(sizes, means));
  }

  /** After the rows in `done`: their pseudo-averages are put and their `ratingSum`s added up. */
  ghost predicate RowsAveraged(sums: map<Id, real>, goal: map<Id, real>, done: set<Id>,
                               avgs: map<Id, real>, total: real)
    requires done <= sums.Keys
  {
    && (forall x :: x in avgs <==> x in done)
    && (forall x :: x in avgs && x in goal ==> avgs[x] == goal[x])
    && total == SetSum(done, sums)
  }

  /** The loop of AverageRows, against the row sums and the pseudo-averages it must reach. */
  method AverageLoop(view: Matrix, means: map<Id, real>, ghost sums: map<Id, real>, ghost goal: map<Id, real>)
      returns (avgs: map<Id, real>, total: real)
    requires sums.Keys == view.Keys && goal.Keys == view.Keys
    requires forall x :: x in view ==> sums[x] == RowSum(GetMeanRating(means, x), |view[x]|)
    requires forall x :: x in view ==> goal[x] == PseudoAverage(sums[x], |view[x]|)
    ensures avgs == goal
    ensures total == SetSum(view.Keys, sums)
  {
    avgs, total := map[], 0.0;
    var rest := view.Keys;
    ghost var done: set<Id> := {};
    while rest != {}
      invariant rest <= view.Keys && done <= view.Keys
      invariant forall x :: x in done <==> x in view && x !in rest
      invariant RowsAveraged(sums, goal, done, avgs, total)
      decreases rest
    {
      var x := Choose(rest);
      avgs, total, done := AverageStep(view, means, sums, goal, x, done, avgs, total);
      rest := rest - {x};
    }
    SetsEqual(done, view.Keys);
    MapsEqual(avgs, goal);
  }

  /** One row of computeAvgs' loop: its `ratingSum` is added and its pseudo-average put. */
  method AverageStep(view: Matrix, means: map<Id, real>, ghost sums: map<Id, real>, ghost goal: map<Id, real>,
                     x: Id, ghost done: set<Id>, avgs0: map<Id, real>, total0: real)
      returns (avgs: map<Id, real>, total: real, ghost done': set<Id>)
    requires sums.Keys == view.Keys && goal.Keys == view.Keys
    requires forall x :: x in view ==> sums[x] == RowSum(GetMeanRating(means, x), |view[x]|)
    requires forall x :: x in view ==> goal[x] == PseudoAverage(sums[x], |view[x]|)
    requires x in view && x !in done && done <= view.Keys
    requires RowsAveraged(sums, goal, done, avgs0, total0)
    ensures done' == done + {x}
    ensures RowsAveraged(sums, goal, done', avgs, total)
  {
    var ratingCount := |view[x]|;
    var ratingSum := RowSum(GetMeanRating(means, x), ratingCount);
    SetSumAdd(done, sums, x);
    total := total0 + ratingSum;
    avgs := avgs0[x := PseudoAverage(ratingSum, ratingCount)];
    done' := done + {x};
  }

  // ---------------------------------------------------------------------------
  // Feature vectors
  // ---------------------------------------------------------------------------

  /** A feature map holding `value` for every key. */
  function Filled(keys: set<Id>, value: real): (row: map<Id, real>)
    ensures row.Keys == keys
  {
    map k | k in keys :: value
  }

  /** The inner loops of the fresh constructor: `value` put under every key. */
  method FillKeys(keys: set<Id>, value: real) returns (row: map<Id, real>)
    ensures row == Filled(keys, value)
  {
    row := map[];
    var rest := keys;
    while rest != {}
      invariant rest <= keys
      invariant forall k :: k in row <==> k in keys && k !in rest
      invariant forall k :: k in row ==> row[k] == value
      decreases rest
    {
      var k := Choose(rest);
      row := row[k := value];
      rest := rest - {k};
    }
    assert forall k :: k in row <==> k in keys;
    assert row.Keys == Filled(keys, value).Keys;
    assert forall k :: k in row ==> row[k] == Filled(keys, value)[k];
  }

  /**
   * The gradient step on one feature value: `own` moves by the learning rate
   * times the error times the partner value `other`, less the regularisation.
   */
  function Updated(own: real, other: real, err: real, alpha: real, beta: real): real
  {
    own + alpha * (err * other - beta * own)
  }

  /** A feature value, 0 for a key the feature map does not hold. */
  function Entry(m: map<Id, real>, k: Id): real
  {
    if k in m then m[k] else 0.0
  }

  /** The user's and the item's products summed over the first `n` features. */
  function FeatureDot(us: seq<map<Id, real>>, vs: seq<map<Id, real>>, user: Id, item: Id, n: nat): real
    requires n <= |us| && n <= |vs|
  {
    if n == 0 then 0.0 else FeatureDot(us, vs, user, item, n - 1) + Entry(us[n - 1], user) * Entry(vs[n - 1], item)
  }

  /** On freshly initialised features every product is INIT * INIT, so the sum is n * INIT^2. */
  lemma {:induction false} FilledFeatureDot(us: seq<map<Id, real>>, vs: seq<map<Id, real>>, user: Id, item: Id,
                                            n: nat, init: real)
    requires n <= |us| && n <= |vs|
    requires forall f :: 0 <= f < n ==> user in us[f] && item in vs[f]
    requires forall f :: 0 <= f < n ==> us[f][user] == init && vs[f][item] == init
    ensures FeatureDot(us, vs, user, item, n) == n as real * (init * init)
  {
    if n != 0 {
      FilledFeatureDot(us, vs, user, item, n - 1, init);
      assert (n - 1) as real * (init * init) + init * init == n as real * (init * init);
    }
  }

  /**
   * An update of feature f at (user, item) leaves the products of every pair
   * that shares neither the user nor the item as they were.
   */
  lemma {:induction false} FeatureDotUntouched(us: seq<map<Id, real>>, vs: seq<map<Id, real>>, f: nat,
                                               user: Id, item: Id, a: real, b: real, u: Id, i: Id, n: nat)
    requires f < |us| && f < |vs| && n <= |us| && n <= |vs|
    requires u != user && i != item
    ensures FeatureDot(us[f := us[f][user := a]], vs[f := vs[f][item := b]], u, i, n)
            == FeatureDot(us, vs, u, i, n)
  {
    if n != 0 {
      FeatureDotUntouched(us, vs, f, user, item, a, b, u, i, n - 1);
    }
  }

  /**
   * An update of feature f at (user, item) moves the pair's own sum of
   * products by exactly the change in feature f's product.
   */
  lemma {:induction false} FeatureDotUpdated(us: seq<map<Id, real>>, vs: seq<map<Id, real>>, f: nat,
                                             user: Id, item: Id, a: real, b: real, n: nat)
    requires f < n <= |us| && n <= |vs|
    requires user in us[f] && item in vs[f]
    ensures FeatureDot(us[f := us[f][user := a]], vs[f := vs[f][item := b]], user, item, n)
            == FeatureDot(us, vs, user, item, n) - us[f][user] * vs[f][item] + a * b
  {
    var us', vs' := us[f := us[f][user := a]], vs[f := vs[f][item := b]];
    if n - 1 == f {
      FeatureDotAgree(us, vs, us', vs', user, item, n - 1);
    } else {
      FeatureDotUpdated(us, vs, f, user, item, a, b, n - 1);
    }
  }

  /** The sums agree when the features agree on the pair's entries. */
  lemma {:induction false} FeatureDotAgree(us: seq<map<Id, real>>, vs: seq<map<Id, real>>,
                                           us': seq<map<Id, real>>, vs': seq<map<Id, real>>,
                                           user: Id, item: Id, n: nat)
    requires n <= |us| && n <= |vs| && n <= |us'| && n <= |vs'|
    requires forall g :: 0 <= g < n ==> Entry(us[g], user) == Entry(us'[g], user)
    requires forall g :: 0 <= g < n ==> Entry(vs[g], item) == Entry(vs'[g], item)
    ensures FeatureDot(us, vs, user, item, n) == FeatureDot(us', vs', user, item, n)
  {
    if n != 0 {
      FeatureDotAgree(us, vs, us', vs', user, item, n - 1);
    }
  }

  /** The most passes a feature gets: MIN_ITER (when positive) plus the extra passes allowed. */
  function PassBudget(minIter: int, extraPasses: nat): (budget: nat)
    ensures minIter <= budget
  {
    (if minIter > 0 then minIter else 0) + extraPasses
  }

  /** The global average of computeAvgs: the accumulated total over the number of training ratings, if any. */
  function GlobalAverage(total: real, n: int): real
  {
    if n != 0 then total / n as real else total
  }

  // ---------------------------------------------------------------------------
  // The recommender
  // ---------------------------------------------------------------------------

  class FunkSVDRecommender {
    const dao: DAO
    const numFeatures: nat
    const minIter: int
    const minImprovement: real
    const alpha: real
    const beta: real
    var glAverage: real
    /** U[f]: user -> value of feature f; V[f]: item -> value of feature f. */
    const U: array<map<Id, real>>
    const V: array<map<Id, real>>
    var userPseudoAvg: map<Id, real>
    var itemPseudoAvg: map<Id, real>
    var featuresKnown: bool

    /** The users and the items of the store's views, fixed at construction. */
    ghost const users: set<Id>
    ghost const items: set<Id>

    /** Every feature map covers the users (U) or the items (V). */
    ghost predicate Covered()
      reads this, U, V
    {
      && U.Length == numFeatures && V.Length == numFeatures && U != V
      && (forall f :: 0 <= f < numFeatures ==> U[f].Keys == users)
      && (forall f :: 0 <= f < numFeatures ==> V[f].Keys == items)
    }

    /**
     * The feature maps and the pseudo-averages cover the users and the items
     * of the store's views, and every item a user rated is one of the items.
     */
    ghost predicate Valid()
      reads this, U, V, dao
    {
      && Covered()
      && dao.trainData.Keys == users && dao.transposedTrainData.Keys == items && dao.ViewsAgree()
      && userPseudoAvg.Keys == users && itemPseudoAvg.Keys == items
    }

    /** The users and the items are those of the training lines (a fact about constants). */
    ghost predicate OfLines()
    {
      users == UsersOf(dao.trainLines) && items == ItemsOf(dao.trainLines)
    }

    /** The averages computeAvgs leaves, over the store's views and means. */
    ghost predicate Averaged()
      reads this`userPseudoAvg, this`itemPseudoAvg, this`glAverage, dao
    {
      && userPseudoAvg == PseudoAverages(RowSizes(dao.trainData), dao.userMeanRatings)
      && itemPseudoAvg == PseudoAverages(RowSizes(dao.transposedTrainData), dao.itemMeanRatings)
      && glAverage == GlobalAverage(SetSum(dao.trainData.Keys, RatingSums(RowSizes(dao.trainData), dao.userMeanRatings)),
                                    dao.numOfRatings)
    }

    /**
     * The constructor for features still to be learned: every user feature
     * and every item feature starts at `init`, then the averages are computed.
     */
    constructor (dao: DAO, numFeatures: nat, minIter: int, init: real, minImprovement: real,
                 alpha: real, beta: real)
      requires dao.ViewsAgree()
      ensures this.dao == dao && this.numFeatures == numFeatures && this.minIter == minIter
      ensures this.minImprovement == minImprovement && this.alpha == alpha && this.beta == beta
      ensures Valid() && Averaged() && !featuresKnown
      ensures fresh(U) && fresh(V)
      ensures forall f :: 0 <= f < numFeatures ==> U[f] == Filled(users, init) && V[f] == Filled(items, init)
    {
      this.dao := dao;
      this.numFeatures := numFeatures;
      this.minIter := minIter;
      this.minImprovement := minImprovement;
      this.alpha := alpha;
      this.beta := beta;
      U := new map<Id, real>[numFeatures](_ => map[]);
      V := new map<Id, real>[numFeatures](_ => map[]);
      featuresKnown := false;
      users, items := dao.trainData.Keys, dao.transposedTrainData.Keys;
      new;
      FillFeatures(dao.trainData.Keys, dao.transposedTrainData.Keys, init);
      ComputeAvgs();
    }

    /** The initialisation loop of the constructor: every feature value of every user and item is `init`. */
    method FillFeatures(userKeys: set<Id>, itemKeys: set<Id>, init: real)
      requires U.Length == numFeatures && V.Length == numFeatures && U != V
      requires userKeys == users && itemKeys == items
      modifies U, V
      ensures Covered()
      ensures forall f :: 0 <= f < numFeatures ==> U[f] == Filled(users, init) && V[f] == Filled(items, init)
    {
      for f := 0 to numFeatures
        invariant forall g :: 0 <= g < f ==> U[g] == Filled(users, init) && V[g] == Filled(items, init)
      {
        var userRow := FillKeys(userKeys, init);
        U[f] := userRow;
        var itemRow := FillKeys(itemKeys, init);
        V[f] := itemRow;
      }
    }

    /**
     * computeAvgs: the pseudo-average of every user and every item, and the
     * global average, the users' rating sums over the number of training ratings.
     */
    method ComputeAvgs()
      modifies this`userPseudoAvg, this`itemPseudoAvg, this`glAverage
      ensures Averaged()
      ensures userPseudoAvg.Keys == dao.trainData.Keys && itemPseudoAvg.Keys == dao.transposedTrainData.Keys
    {
      var total, itemTotal;
      userPseudoAvg, total := AverageRows(dao.trainData, dao.userMeanRatings);
      glAverage := total;
      var n := dao.numOfRatings;
      if n != 0 {
        glAverage := glAverage / n as real;
      }
      itemPseudoAvg, itemTotal := AverageRows(dao.transposedTrainData, dao.itemMeanRatings);
    }

    /**
     * On a loaded store, the averages are those of the training lines: each
     * user's and item's pseudo-average, and the mean of all training ratings.
     */
    lemma AveragedOverLines()
      requires dao.Valid() && Averaged()
      ensures userPseudoAvg == PseudoAverages(RowSizes(UserView(dao.trainLines)), UserMeans(dao.trainLines))
      ensures itemPseudoAvg == PseudoAverages(RowSizes(ItemView(dao.trainLines)), ItemMeans(dao.trainLines))
      ensures glAverage == if |dao.trainLines| == 0 then 0.0 else RatingTotal(dao.trainLines) / |dao.trainLines| as real
    {
      ghost var ts := dao.trainLines;
      AveragesOfLines(ts, dao.trainData, dao.transposedTrainData, dao.userMeanRatings, dao.itemMeanRatings,
                      SetSum(dao.trainData.Keys, RatingSums(RowSizes(dao.trainData), dao.userMeanRatings)));
    }

    /** On a loaded store, the users and items of the views are those of the training lines. */
    lemma OfTrainLines()
      requires dao.Valid() && Valid()
      ensures OfLines()
    {
      ViewsOfLines(dao);
    }

    /** The bias term shared by training and prediction. */
    function Baseline(user: Id, item: Id): real
      reads this`glAverage, this`userPseudoAvg, this`itemPseudoAvg
      requires user in userPseudoAvg && item in itemPseudoAvg
    {
      glAverage + (glAverage - itemPseudoAvg[item]) + (glAverage - userPseudoAvg[user])
    }

    /** dotProduct: 1.0 (not 0) plus the user's and the item's products over all features. */
    method DotProduct(user: Id, item: Id) returns (sum: real)
      requires Covered() && user in users && item in items
      ensures sum == 1.0 + FeatureDot(U[..], V[..], user, item, numFeatures)
    {
      sum := 1.0;
      for f := 0 to numFeatures
        invariant sum == 1.0 + FeatureDot(U[..], V[..], user, item, f)
      {
        sum := sum + U[f][user] * V[f][item];
      }
    }

    /**
     * predict: negative infinity unless the user has a feature and a
     * pseudo-average and the item too, which is exactly when both have
     * training lines; otherwise the clipped bias plus the dot product.
     * `U[0]` on a recommender without features throws, hence `1 <= numFeatures`.
     */
    method Predict(user: Id, item: Id) returns (p: Prediction)
      requires Valid() && OfLines() && 1 <= numFeatures
      ensures p == NegativeInfinity <==> user !in UsersOf(dao.trainLines) || item !in ItemsOf(dao.trainLines)
      ensures p.Finite? ==>
                user in userPseudoAvg && item in itemPseudoAvg &&
                p.value == CeilPrediction(Baseline(user, item) + 1.0 + FeatureDot(U[..], V[..], user, item, numFeatures))
      ensures p.Finite? ==> MIN_RATING <= p.value <= MAX_RATING
    {
      if user !in U[0] || item !in V[0] || item !in itemPseudoAvg || user !in userPseudoAvg {
        return NegativeInfinity;
      }
      var dot := DotProduct(user, item);
      return Finite(CeilPrediction(Baseline(user, item) + dot));
    }

    /**
     * The update of one training pair for feature f: both new values are
     * computed from the old `cf = U[f][user]` and `mf = V[f][item]`, and no
     * other entry of any feature map changes.
     */
    method UpdateStep(f: nat, user: Id, item: Id, err: real)
      requires Covered() && f < numFeatures && user in users && item in items
      modifies U, V
      ensures Covered()
      ensures U[f] == old(U[f])[user := Updated(old(U[f][user]), old(V[f][item]), err, alpha, beta)]
      ensures V[f] == old(V[f])[item := Updated(old(V[f][item]), old(U[f][user]), err, alpha, beta)]
      ensures forall g :: 0 <= g < numFeatures && g != f ==> U[g] == old(U[g]) && V[g] == old(V[g])
      ensures FeatureDot(U[..], V[..], user, item, numFeatures)
              == old(FeatureDot(U[..], V[..], user, item, numFeatures)) - old(U[f][user] * V[f][item])
                 + U[f][user] * V[f][item]
      ensures forall u, i :: u != user && i != item ==>
                FeatureDot(U[..], V[..], u, i, numFeatures) == old(FeatureDot(U[..], V[..], u, i, numFeatures))
    {
      ghost var us, vs := U[..], V[..];
      var cf := U[f][user];
      var mf := V[f][item];
      var a, b := Updated(cf, mf, err, alpha, beta), Updated(mf, cf, err, alpha, beta);
      U[f] := U[f][user := a];
      V[f] := V[f][item := b];
      assert U[..] == us[f := us[f][user := a]] && V[..] == vs[f := vs[f][item := b]];
      FeatureDotUpdated(us, vs, f, user, item, a, b, numFeatures);
      forall u, i | u != user && i != item
        ensures FeatureDot(U[..], V[..], u, i, numFeatures) == FeatureDot(us, vs, u, i, numFeatures)
      {
        FeatureDotUntouched(us, vs, f, user, item, a, b, u, i, numFeatures);
      }
    }

    /**
     * The inner loop of one pass for one user: for every item the user rated,
     * the error of the current prediction is squared into `sq` and feature f
     * takes one update step.
     */
    method PassUser(f: nat, user: Id, sq0: real) returns (sq: real)
      requires Valid() && f < numFeatures && user in dao.trainData && 0.0 <= sq0
      modifies U, V
      ensures Valid() && sq0 <= sq
      ensures forall g :: 0 <= g < numFeatures && g != f ==> U[g] == old(U[g]) && V[g] == old(V[g])
    {
      sq := sq0;
      var rest := dao.trainData[user].Keys;
      while rest != {}
        invariant Valid() && sq0 <= sq && rest <= dao.trainData[user].Keys
        invariant forall g :: 0 <= g < numFeatures && g != f ==> U[g] == old(U[g]) && V[g] == old(V[g])
        decreases rest
      {
        var item := Choose(rest);
        var r := GetTrainRating(dao.trainData, user, item).value;
        var p := DotProduct(user, item);
        var err := r - Baseline(user, item) - p;
        assert 0.0 <= err * err;
        sq := sq + err * err;
        UpdateStep(f, user, item, err);
        rest := rest - {item};
      }
    }

    /** One pass of feature f over every training rating; `sq` is the sum of the squared errors. */
    method Pass(f: nat) returns (sq: real)
      requires Valid() && f < numFeatures
      modifies U, V
      ensures Valid() && 0.0 <= sq
      ensures forall g :: 0 <= g < numFeatures && g != f ==> U[g] == old(U[g]) && V[g] == old(V[g])
    {
      sq := 0.0;
      var rest := dao.trainData.Keys;
      while rest != {}
        invariant Valid() && 0.0 <= sq && rest <= dao.trainData.Keys
        invariant forall g :: 0 <= g < numFeatures && g != f ==> U[g] == old(U[g]) && V[g] == old(V[g])
        decreases rest
      {
        var user := Choose(rest);
        sq := PassUser(f, user, sq);
        rest := rest - {user};
      }
    }

    /**
     * train: nothing when the features are known; otherwise each feature in
     * turn gets passes while fewer than MIN_ITER were made or the RMSE keeps
     * improving by MIN_IMPROVEMENT, at most `PassBudget(minIter, extraPasses)`
     * of them, and the features are then known. `passes[f]` is the number of
     * passes feature f got.
     */
    method Train(sqrt: real -> real, extraPasses: nat) returns (ghost passes: seq<int>)
      requires Valid() && IsSqrt(sqrt)
      modifies this`featuresKnown, U, V
      ensures Valid() && featuresKnown
      ensures old(featuresKnown) ==> U[..] == old(U[..]) && V[..] == old(V[..]) && passes == []
      ensures !old(featuresKnown) ==> |passes| == numFeatures
      ensures forall f :: 0 <= f < |passes| ==> minIter <= passes[f] <= PassBudget(minIter, extraPasses)
    {
      passes := [];
      if featuresKnown {
        return;
      }
      var budget := PassBudget(minIter, extraPasses);
      var rmse, rmseLast := Number(2.0), Number(10.0);
      var numTotalRatings := dao.numOfRatings;
      for f := 0 to numFeatures
        invariant Valid() && |passes| == f
        invariant forall g :: 0 <= g < f ==> minIter <= passes[g] <= budget
      {
        var step := 0;
        while step < minIter || (step < budget && Improving(rmse, rmseLast, minImprovement))
          invariant Valid() && 0 <= step <= budget
          decreases budget - step
        {
          rmseLast := rmse;
          var sq := Pass(f);
          rmse := if numTotalRatings != 0 then Number(sqrt(sq / numTotalRatings as real)) else NotANumber;
          step := step + 1;
        }
        passes := passes + [step];
      }
      featuresKnown := true;
    }
  }
}
