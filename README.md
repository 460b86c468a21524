# recsys-lib recommenders, modelled in Dafny

This project models the recommender core of recsys-lib, a Java library of
collaborative-filtering recommenders. It covers five parts:

- **DAO.** The data access object reads `user item rating` training and test
  lines into nested hash maps. It keeps three training views: user -> item ->
  rating, the transposed item -> user -> rating, and the training lines
  themselves. It also keeps per-user and per-item mean ratings, and can
  normalise (and denormalise) a view by those means.
- **BaseRecommender.** It clips predictions to the 1..5 rating scale. Its
  default prediction is the user's mean rating. Its evaluation walks the test
  set and reports coverage, MAE and RMSE.
- **User-user and item-item collaborative filtering.** Training normalises a
  view by the means, stores a smoothed cosine similarity for every pair of
  rows (only the pairs `u < v`), and keeps, for every row, a neighbourhood of
  at most `NEIGHBORHOOD_SIZE` most similar rows. It finds that neighbourhood
  with a min-priority queue. Prediction is the row's mean plus the smoothed
  similarity-weighted average of the neighbours' ratings. It is negative
  infinity when fewer than `MIN_NEIGHBORS` neighbours have rated the cell.
- **Slope One.** Training accumulates item-item rating differences and
  co-rating counts, averages them into deviations, and caches, for every
  training user, a frequency-weighted prediction for each unrated item.
- **Funk SVD.** It has per-feature user and item maps initialised to `INIT`.
  Pseudo-averages blend each user's (item's) mean with 25 virtual ratings of
  3.23, beside a global average. Training runs stochastic gradient steps,
  feature by feature, for at least `MIN_ITER` passes and while the RMSE keeps
  improving by `MIN_IMPROVEMENT`.

Modelling choices:

- Ratings and similarities are `real`. User and item ids are `int`, under
  the name `Sparse.Id`.
- Nested `HashMap`s are nested `map`s (`Sparse.Matrix`).
- A loop over a `keySet()` takes an unspecified key each time
  (`Sparse.Choose`). So every result is proved whatever the iteration order
  is, and order-free sums are stated with the ghost `Sparse.SetSum`.
- The Java sentinel `Double.NEGATIVE_INFINITY` is the `Base.Prediction`
  constructor `NegativeInfinity`.
- `Math.sqrt` is a function parameter constrained by `Base.IsSqrt`. On
  non-negative arguments it is non-negative, and its square is EXACTLY the
  argument (`sqrt(x) * sqrt(x) == x`); it is 0 at 0. Java's `Math.sqrt`
  rounds, so it does not meet the exact-square clause:
  `Math.sqrt(2) * Math.sqrt(2)` is 2.0000000000000004. Every fact that uses
  the clause holds only under that assumption. In particular, the fact that
  the cosine formula gives exactly 1 for a row with itself
  (`Neighborhood.SimilarityToSelf`) is proved only under it.
- Each class that the source mutates is a Dafny `class` whose methods state
  the new state:
  - `Dao.DAO`'s normalisations reassign its views;
  - the recommenders' `train` methods fill their tables;
  - Funk SVD's `U` and `V` are arrays of maps updated in place.
- The user-user and item-item recommenders are the same code, one on the
  user view and one on the transposed view. Their shared logic (similarity,
  the similarity table, neighbour selection, the weighted aggregate) is the
  `Neighborhood` module, over "rows" and "columns".
- The data a recommender is built on is described by the training lines
  (`Dao.UserView`, `Dao.UserMeans`, ... as functions of `seq<Triple>`). The
  lemmas state each store lookup in terms of those lines.

## Model

| member | source | states |
|---|---|---|
| Dao.LoadTrainLines | src/recommender/DAO.java:53-99 | reading the training lines yields the two views, the user and item means, the item line counts, the number of lines and the numbers of distinct users and items, each as the function of the lines that defines it; every user (item) with a row has a mean |
| Dao.ReadLines | src/recommender/DAO.java:105-118 | reading the test lines yields the user view of those lines |
| Dao.DivideUserSums | src/recommender/DAO.java:95-96 | every user's rating sum is divided by the size of the user's row, and no key is added or lost |
| Dao.DivideItemSums | src/recommender/DAO.java:98-99 | every item's rating sum is divided by the item's line count, and no key is added or lost |
| Dao.UserMeans | src/recommender/DAO.java:95-96 | the user means have a key for exactly the users with a training line |
| Dao.ItemMeans | src/recommender/DAO.java:98-99 | the item means have a key for exactly the items with a training line |
| Dao.UserViewContents | src/recommender/DAO.java:61-67 | the user view has a row for exactly the users with a line, holds (u, i) exactly when some line rates i by u, and holds the rating of the LAST such line |
| Dao.ItemViewContents | src/recommender/DAO.java:69-75 | the transposed view has a row for exactly the items with a line, holds (i, u) exactly when some line rates i by u, with the rating of the last such line |
| Dao.ViewsTransposed | src/recommender/DAO.java:61-75 | u rated i with r in the user view if and only if i was rated by u with r in the transposed view |
| Dao.SumsOfLines | src/recommender/DAO.java:77-87 | the running user sums, item sums and item counts are the sums and counts over all the lines of that user or item, and zero for ids without lines |
| Dao.TrainRatingOfLines | src/recommender/DAO.java:128-139 | getTrainRating fails with IllegalArgument exactly for a user without training lines, returns the last rating of a rated pair, and 0 for an unrated item of a known user |
| Dao.TestRatingOfLines | src/recommender/DAO.java:147-158 | getTestRating succeeds exactly for a pair with a test line, with its last rating, and otherwise fails with the error naming the missing user or the missing item |
| Dao.ContainsOfLines | src/recommender/DAO.java:241-271 | containsTrainRating and containsTransposedTrainRating hold exactly for the pairs some training line rates |
| Dao.UserMeanOfLines | src/recommender/DAO.java:163-169 | getUserMeanRating is 3.5 for a user without lines, otherwise the sum of all the user's lines over the number of DISTINCT items the user rated |
| Dao.ItemMeanOfLines | src/recommender/DAO.java:174-180 | getItemMeanRating is 3.5 for an item without lines, otherwise the sum of the item's lines over the number of those lines |
| Dao.ShiftRowsRoundTrip | src/recommender/DAO.java:274-315 | normalising and then denormalising by the same means (or the reverse) gives back the view, and each keeps every row's keys |
| Dao.ShiftRowsInPlace | src/recommender/DAO.java:276-283 | the nested loop that rewrites every rating of every row yields every row shifted by that row's mean |
| Dao.DAO.constructor | src/recommender/DAO.java:36-120 | the store holds the two training views and the test view of the lines read, the means, counts and sizes of the training lines, and its invariant |
| Dao.DAO.NumTrainUsers | src/recommender/DAO.java:320-323 | the number of distinct users with a training line, which is the number of rows of the user view |
| Dao.DAO.NumTrainItems | src/recommender/DAO.java:328-331 | the number of distinct items with a training line, which is the number of rows of the transposed view |
| Dao.DAO.NumTrainRatings | src/recommender/DAO.java:336-339 | the number of training lines read, duplicates included |
| Dao.DAO.NumTrainRatingsForUser | src/recommender/DAO.java:344-347 | for a training user, the number of distinct items the user rated, at least 1 |
| Dao.DAO.NumTrainRatingsForItem | src/recommender/DAO.java:352-355 | for a training item, the number of distinct users who rated it, at least 1 |
| Dao.DAO.UserMeanNormalize | src/recommender/DAO.java:276-283 | every rating in the user view loses its user's mean; the store invariant is kept |
| Dao.DAO.UserMeanDeNormalize | src/recommender/DAO.java:298-305 | every rating in the user view gets its user's mean back; the store invariant is kept |
| Dao.DAO.ItemMeanNormalize | src/recommender/DAO.java:288-293 | every rating in the transposed view loses its item's mean; the store invariant is kept |
| Dao.DAO.ItemMeanDeNormalize | src/recommender/DAO.java:310-315 | every rating in the transposed view gets its item's mean back; the store invariant is kept |
| Base.CeilPrediction | src/recommender/BaseRecommender.java:21-28 | the result is in [1, 5], equals the prediction inside that range, and is 5 above it and 1 below it |
| Base.CeilPredictionIdempotent | src/recommender/BaseRecommender.java:21-28 | clipping a clipped prediction changes nothing |
| Base.BaseRecommender.constructor | src/recommender/BaseRecommender.java:38-41 | the recommender is built on the given store |
| Base.BaseRecommender.Predict | src/recommender/BaseRecommender.java:53-57 | the prediction is never negative infinity; it is 3.5 for a user without training lines, otherwise the user's line sum over the number of distinct items the user rated, whatever the item |
| Base.TallySkip | src/recommender/BaseRecommender.java:76-80 | a test pair predicted as negative infinity is counted in the total and nowhere else |
| Base.TallyCover | src/recommender/BaseRecommender.java:81-85 | a covered test pair adds one rating, its absolute error to the MAE sum and its squared error to the RMSE sum |
| Base.EvaluatePair | src/recommender/BaseRecommender.java:76-85 | one test pair keeps the running counts and sums equal to the counts and sums over the pairs done so far |
| Base.EvaluateUser | src/recommender/BaseRecommender.java:75-87 | the inner loop adds exactly the user's test pairs to those done, with counts and sums over all of them |
| Base.TallyTestPairs | src/recommender/BaseRecommender.java:74-88 | the nested loop counts every test pair, and counts and sums the errors of exactly the covered pairs |
| Base.Evaluate | src/recommender/BaseRecommender.java:67-102 | countTotal is the number of test pairs and countRatings the number of covered ones; there is no report exactly when nothing is covered; otherwise coverage is countRatings * 100 / countTotal in (0, 100], MAE the mean absolute error and RMSE the square root of the mean squared error over the covered pairs, both never negative |
| Base.AbsErrorsNonNegative | src/recommender/BaseRecommender.java:84 | the summed absolute errors of the covered pairs are not negative |
| Base.SquaredErrorsNonNegative | src/recommender/BaseRecommender.java:85 | the summed squared errors of the covered pairs are not negative, so their mean has a root |
| Base.PercentageBounds | src/recommender/BaseRecommender.java:98 | a positive count of at most the total is a percentage in (0, 100] |
| Neighborhood.CoRatedSums | src/recommender/UUCollaborativeFiltering.java:99-109 | the loop over u's ratings sums, over exactly the columns both rows rated, the products of the two rows and the squares of each row |
| Neighborhood.VectorCosineSimilarity | src/recommender/UUCollaborativeFiltering.java:96-113 | the result is the smoothed cosine of the two rows: (dot product + 1) / (product of norms + 1), over the co-rated columns |
| Neighborhood.SimilaritySymmetric | src/recommender/UUCollaborativeFiltering.java:115-118 | the similarity of u and v is the similarity of v and u, which is why only half the pairs are stored |
| Neighborhood.SimilarityToSelf | src/recommender/UUCollaborativeFiltering.java:125-126 | the formula gives 1 for a row with itself, the constant the lookup returns for u == v (under the exact-square assumption on sqrt) |
| Neighborhood.SimilarityWithoutOverlap | src/recommender/UUCollaborativeFiltering.java:99-112 | two rows without a co-rated column have similarity 1 |
| Neighborhood.GetSimilaritySymmetric | src/recommender/UUCollaborativeFiltering.java:120-129 | the lookup answers for (v, u) whenever it answers for (u, v), with the same value |
| Neighborhood.LookupIsSimilarity | src/recommender/UUCollaborativeFiltering.java:117-129 | over a filled table, the lookup of any two rows, in either order, is their similarity |
| Neighborhood.PutRow | src/recommender/UUCollaborativeFiltering.java:139-150 | the inner loop stores the similarity of u with every row v > u, and keeps every other entry |
| Neighborhood.PutAllPairs | src/recommender/UUCollaborativeFiltering.java:136-152 | the table gains exactly the pairs u < v of rows, each holding the rows' similarity, and keeps every other entry |
| Neighborhood.SimilaritiesStored | src/recommender/UUCollaborativeFiltering.java:120-152 | after the pairs are stored, the lookup never dereferences a missing row for two rows of the view |
| Neighborhood.PeekLeastSimilar | src/recommender/UUCollaborativeFiltering.java:161-179 | the queue's head (peek) is a queued neighbour at most as similar as every other queued neighbour |
| Neighborhood.Offer | src/recommender/UUCollaborativeFiltering.java:176-184 | offering a row to a top-K choice (added below capacity, or replacing the least similar when strictly more similar) gives a top-K choice of the rows seen so far plus that row |
| Neighborhood.TopKSize | src/recommender/UUCollaborativeFiltering.java:154-157 | a neighbourhood holds NEIGHBORHOOD_SIZE rows, or all the candidates when there are fewer |
| Neighborhood.FindNeighbors | src/recommender/UUCollaborativeFiltering.java:157-192 | the neighbours are a top-K choice among all other rows: at most K, all of them when fewer than K, and none left out more similar than one kept |
| Neighborhood.FindAllNeighbors | src/recommender/UUCollaborativeFiltering.java:58-59 | every row gets a top-K neighbourhood among the other rows; lists of other keys are kept |
| Neighborhood.NeighborsMostSimilar | src/recommender/UUCollaborativeFiltering.java:154-192 | no row left out of a neighbourhood has a greater cosine similarity to the row than a neighbour kept |
| Neighborhood.RaterSums | src/recommender/UUCollaborativeFiltering.java:73-81 | the loop over the neighbours sums the similarity-weighted ratings and the absolute similarities of exactly the neighbours that rated the column, and counts them |
| Neighborhood.RaterTerms | src/recommender/UUCollaborativeFiltering.java:73-81 | the rating neighbours and their weighted terms are what the loop reads, and the absolute weights sum to a non-negative normaliser |
| Neighborhood.Aggregate | src/recommender/UUCollaborativeFiltering.java:70-85 | negative infinity exactly when fewer than MIN_NEIGHBORS neighbours rated the column, otherwise mean + (weighted sum + 1) / (normaliser + 1) clipped to [1, 5] |
| UserUser.UUCollaborativeFiltering.constructor | src/recommender/UUCollaborativeFiltering.java:36-47 | the parameters are stored and both tables start empty |
| UserUser.UUCollaborativeFiltering.Train | src/recommender/UUCollaborativeFiltering.java:52-60 | the user view is normalised by the user means, the table holds the similarity of every pair of training users in the normalised view, and every training user has a top-K neighbourhood |
| UserUser.UUCollaborativeFiltering.Predict | src/recommender/UUCollaborativeFiltering.java:67-86 | the neighbourhood aggregate around the user's mean: negative infinity exactly when fewer than MIN_NEIGHBORS neighbours rated the item, otherwise in [1, 5] |
| UserUser.UUCollaborativeFiltering.TrainedPredicts | src/recommender/UUCollaborativeFiltering.java:58-76 | after train, every training user has a neighbour list, the lookup answers for each neighbour, and the user is not its own neighbour |
| UserUser.UUCollaborativeFiltering.TrainedNeighborsMostSimilar | src/recommender/UUCollaborativeFiltering.java:154-192 | after train, a user has min(NEIGHBORHOOD_SIZE, other users) neighbours, and no other user left out is more similar than a neighbour |
| ItemItem.IICollaborativeFiltering.constructor | src/recommender/IICollaborativeFiltering.java:36-46 | the parameters are stored and both tables start empty |
| ItemItem.IICollaborativeFiltering.Train | src/recommender/IICollaborativeFiltering.java:51-58 | the transposed view is normalised by the item means, the table holds the similarity of every pair of training items, and every training item has a top-K neighbourhood |
| ItemItem.IICollaborativeFiltering.Predict | src/recommender/IICollaborativeFiltering.java:65-87 | negative infinity for an item without a neighbour list, otherwise the neighbourhood aggregate around the item's mean over the neighbours the user rated: negative infinity exactly when fewer than MIN_NEIGHBORS, otherwise in [1, 5] |
| ItemItem.IICollaborativeFiltering.TrainedPredicts | src/recommender/IICollaborativeFiltering.java:56-77 | after train, every training item has a neighbour list, the lookup answers for each neighbour, and the item is not its own neighbour |
| ItemItem.IICollaborativeFiltering.TrainedNeighborsMostSimilar | src/recommender/IICollaborativeFiltering.java:155-193 | after train, an item has min(NEIGHBORHOOD_SIZE, other items) neighbours, and no other item left out is more similar than a neighbour |
| SlopeOne.AccumulateItem | src/recommender/SlopeOneRecommender.java:51-59 | the innermost loop adds r - r2 to the difference sum and 1 to the count of every item the user rated, creating missing entries at zero |
| SlopeOne.AccumulateUserItem | src/recommender/SlopeOneRecommender.java:42-59 | one rated item's row of both tables (created when missing) gets the user's differences and counts; no other row changes |
| SlopeOne.AccumulateUser | src/recommender/SlopeOneRecommender.java:41-60 | every item the user rated gets the user's differences and counts in its rows |
| SlopeOne.Accumulate | src/recommender/SlopeOneRecommender.java:40-61 | the tables gain, for every pair (a, b), the sum of r_a - r_b and the number of training users who rated both; the tables keep the same pairs, each counted at least once |
| SlopeOne.AccumulatedWellFormed | src/recommender/SlopeOneRecommender.java:42-59 | the difference and count tables always have the same pairs, and every count is at least 1 |
| SlopeOne.AverageRow | src/recommender/SlopeOneRecommender.java:67-68 | every difference sum of a row is divided by its count |
| SlopeOne.Average | src/recommender/SlopeOneRecommender.java:63-69 | every difference sum of every row is divided by its count |
| SlopeOne.FreshFrequencies | src/recommender/SlopeOneRecommender.java:40-61 | from empty tables, (a, b) has a count exactly when some training user rated both, and the count is the number of such users |
| SlopeOne.FrequenciesSymmetric | src/recommender/SlopeOneRecommender.java:51-58 | from empty tables, the count of (a, b) exists exactly when that of (b, a) does, and they are equal |
| SlopeOne.FreshDeviation | src/recommender/SlopeOneRecommender.java:40-69 | from empty tables, the deviation of (a, b) exists exactly when some user rated both, and is the mean of r_a - r_b over those users |
| SlopeOne.DeviationsAntisymmetric | src/recommender/SlopeOneRecommender.java:57-68 | from empty tables, the deviation of (b, a) is minus that of (a, b) |
| SlopeOne.DeviationToSelf | src/recommender/SlopeOneRecommender.java:51-68 | from empty tables, an item has a deviation from itself exactly when some user rated it, and that deviation is 0 |
| SlopeOne.VoteItem | src/recommender/SlopeOneRecommender.java:77-91 | the loop over the deviation rows adds, for every row j sharing users with the rated item i, freq(j, i) * (dev(j, i) + r) to j's numerator and freq(j, i) to its denominator |
| SlopeOne.VoteDiffItem | src/recommender/SlopeOneRecommender.java:78-90 | one deviation row votes (or is skipped when it shares no user with i), and the numerators and denominators stay those of the rows visited |
| SlopeOne.VoteAll | src/recommender/SlopeOneRecommender.java:75-92 | a user's numerators and denominators are, per item j, the sums over the items the user rated that share users with j |
| SlopeOne.Finish | src/recommender/SlopeOneRecommender.java:94-105 | rated items are removed, and the others with a positive denominator are divided by it, the rest removed |
| SlopeOne.CacheFinalized | src/recommender/SlopeOneRecommender.java:71-106 | the finished votes of a user are exactly the user's cached predictions |
| SlopeOne.UserCache | src/recommender/SlopeOneRecommender.java:72-106 | a user's cache holds, for every unrated item sharing users with a rated one, the frequency-weighted average of dev(j, i) + r_i |
| SlopeOne.CachedItems | src/recommender/SlopeOneRecommender.java:75-105 | a user's cache has an entry exactly for each item of the deviation table the user did not rate and that shares users with an item the user rated |
| SlopeOne.CacheAll | src/recommender/SlopeOneRecommender.java:71-107 | every training user gets its cache, and other users' caches are kept |
| SlopeOne.SlopeOneRecommender.constructor | src/recommender/SlopeOneRecommender.java:25-32 | the three tables start empty |
| SlopeOne.SlopeOneRecommender.Train | src/recommender/SlopeOneRecommender.java:38-108 | the counts, the deviations and every training user's cache are those of the training view, added to the tables already there; the tables stay aligned with positive counts |
| SlopeOne.SlopeOneRecommender.Predict | src/recommender/SlopeOneRecommender.java:115-120 | negative infinity exactly when the user has no cached entry for the item, otherwise the cached value clipped to [1, 5] |
| FunkSVD.PseudoAverageBlend | src/recommender/FunkSVDRecommender.java:275 | a pseudo-average is the prior 3.23 for a row without ratings, and always lies between the prior and the row's mean |
| FunkSVD.UserPseudoAverageOfLines | src/recommender/FunkSVDRecommender.java:271-276 | a user's pseudo-average is (3.23 * 25 + the sum of the user's lines) / (25 + distinct items rated) |
| FunkSVD.RatingSumOfLines | src/recommender/FunkSVDRecommender.java:272-273 | mean times rating count gives back the sum of the user's lines |
| FunkSVD.RatingSumsOfLines | src/recommender/FunkSVDRecommender.java:272-273 | the same, for all users at once |
| FunkSVD.LineSumsTotal | src/recommender/FunkSVDRecommender.java:271-274 | the per-user line sums add up to the sum of all training ratings |
| FunkSVD.GlobalSumOfLines | src/recommender/FunkSVDRecommender.java:271-274 | the total accumulated over the training users is the sum of all training ratings |
| FunkSVD.AveragesOfLines | src/recommender/FunkSVDRecommender.java:266-286 | over views with the training lines' shape, the pseudo-averages and the total are those of the lines, keyed by exactly the training users and items |
| FunkSVD.AverageRows | src/recommender/FunkSVDRecommender.java:271-285 | one averaging loop yields every row's pseudo-average and the total of the rows' rating sums |
| FunkSVD.AverageLoop | src/recommender/FunkSVDRecommender.java:271-276 | the loop yields the goal pseudo-averages and the sum of the row sums |
| FunkSVD.AverageStep | src/recommender/FunkSVDRecommender.java:272-275 | one row adds its rating sum to the total and puts its pseudo-average |
| FunkSVD.FillKeys | src/recommender/FunkSVDRecommender.java:94-99 | every key is mapped to INIT |
| FunkSVD.FilledFeatureDot | src/recommender/FunkSVDRecommender.java:93-100 | with every feature at INIT, the feature dot product is NUM_FEATURES * INIT^2 |
| FunkSVD.FeatureDotUpdated | src/recommender/FunkSVDRecommender.java:197-201 | updating (user, item) in feature f replaces exactly that feature's term in the pair's dot product |
| FunkSVD.FeatureDotUntouched | src/recommender/FunkSVDRecommender.java:197-201 | the update leaves the dot product of every pair with another user and another item unchanged |
| FunkSVD.FeatureDotAgree | src/recommender/FunkSVDRecommender.java:291-298 | the dot product of a pair depends only on the pair's entries |
| FunkSVD.PassBudget | src/recommender/FunkSVDRecommender.java:186 | the pass budget allows at least MIN_ITER passes |
| Dao.ViewsOfLines | src/recommender/DAO.java:61-75 | the row keys of a loaded store's user view and transposed view (what getTrainUsers and getAllItems return) are exactly the users and items of its training lines, and every item a user rated is a row of the transposed view |
| Dao.RatedItemsKnown | src/recommender/DAO.java:61-75 | every item in a user's row of the user view has a training line, so the transposed view has a row for it |
| FunkSVD.FunkSVDRecommender.constructor | src/recommender/FunkSVDRecommender.java:68-103 | the parameters are stored, features are not known, U[f] and V[f] map every training user and every item to INIT for each feature, and the averages are computed |
| FunkSVD.FunkSVDRecommender.FillFeatures | src/recommender/FunkSVDRecommender.java:93-100 | every feature map gets every training user (item) at INIT |
| FunkSVD.FunkSVDRecommender.ComputeAvgs | src/recommender/FunkSVDRecommender.java:266-286 | the pseudo-averages of every user and item and the global average are computed from the store, keyed by the store's rows |
| FunkSVD.FunkSVDRecommender.AveragedOverLines | src/recommender/FunkSVDRecommender.java:266-286 | over a loaded store, the pseudo-averages are those of the training lines, and the global average is the mean of all training ratings (0 when there are none) |
| FunkSVD.FunkSVDRecommender.OfTrainLines | src/recommender/FunkSVDRecommender.java:93-100 | over a loaded store, the users and items of U and V are those of the training lines |
| FunkSVD.FunkSVDRecommender.DotProduct | src/recommender/FunkSVDRecommender.java:291-298 | the result is 1 plus the sum over features of U[f][user] * V[f][item] |
| FunkSVD.FunkSVDRecommender.Predict | src/recommender/FunkSVDRecommender.java:249-255 | negative infinity exactly for a user or item without training lines, otherwise the clipped baseline plus dot product, in [1, 5] |
| FunkSVD.FunkSVDRecommender.UpdateStep | src/recommender/FunkSVDRecommender.java:197-201 | U[f][user] and V[f][item] take one gradient step from their OLD values, nothing else changes, the pair's dot product changes by exactly feature f's term, and other pairs' dot products are unchanged |
| FunkSVD.FunkSVDRecommender.PassUser | src/recommender/FunkSVDRecommender.java:190-203 | one user's items add their squared errors to sq, only feature f changes, and every map keeps its keys |
| FunkSVD.FunkSVDRecommender.Pass | src/recommender/FunkSVDRecommender.java:186-204 | a pass sums non-negative squared errors, changes only feature f, and keeps every map's keys |
| FunkSVD.FunkSVDRecommender.Train | src/recommender/FunkSVDRecommender.java:175-242 | nothing changes when the features are known; otherwise every feature gets between MIN_ITER and the pass budget passes, and the features become known |

## Left out

- File I/O: the DAO's file reading and tokenising (DAO.java lines 50-58 and
  102-110) is replaced by sequences of `Triple`s. `evaluate`'s prediction
  file and every `System.out` line are left out. Funk SVD's feature files
  are left out too: the loading constructor (lines 122-168) and the saving
  in `train` (lines 209-239).
- `CompareRecommenders.java` (the command-line driver) is not part of this
  model.
- IEEE doubles: ratings, means and similarities are exact reals, so
  rounding is not modelled. 32-bit `int` overflow of the counters is not
  modelled either.
- The plain getters (`getTrainUsers`, `getTrainItems`, `getAllItems`,
  `containsTrainUser`, ...) are read as the DAO's fields (`trainData.Keys`,
  `trainData[u].Keys`, ...), not as members of their own.
- Base.BaseRecommender.Predict: `predict` is virtual in Java. `evaluate`
  takes the prediction as a function parameter instead of dispatching.
  `BaseRecommender.train` does nothing, and its model has an empty frame
  and no postcondition.
- Neighborhood.FindNeighbors: the priority queue is a set of ids, and its
  head is any least similar member. Ties between equally similar rows may
  therefore be broken differently from Java's heap, and the list's order
  is not modelled.
- UserUser.UUCollaborativeFiltering.Predict: it requires a neighbour list
  for the user, because Java dereferences null without one.
  TrainedPredicts shows that every training user has such a list after
  `train`.
- UserUser.UUCollaborativeFiltering.Train: it requires NEIGHBORHOOD_SIZE
  >= 1 when there are training users, because `new PriorityQueue(0, ...)`
  throws.
- ItemItem.IICollaborativeFiltering.Train: it requires NEIGHBORHOOD_SIZE
  >= 1 when there are training items, for the same reason.
- SlopeOne.SlopeOneRecommender.Train: no bound is proved that keeps cached
  predictions inside the rating range, because the Java does not clip them
  until `predict`.
- FunkSVD.FunkSVDRecommender.Train: the loop that runs while the RMSE
  improves is bounded by `PassBudget(MIN_ITER, extraPasses)`, where
  `extraPasses` is a parameter of the model. Passes beyond that budget are
  not modelled. `passes` is a ghost record of the number of passes.
- FunkSVD.FunkSVDRecommender.PassUser: it states only that squared errors
  accumulate and which features change, not the learned values, because
  those depend on the HashMap iteration order.
- FunkSVD.FunkSVDRecommender.Pass: it states only that the summed squared
  errors are non-negative and that only feature f changes, not the learned
  values, for the same reason.
- FunkSVD.FunkSVDRecommender.constructor: it requires only that every item
  a user rated is a key of the transposed view, not that the store is
  loaded. Dao.ViewsOfLines shows that every loaded store meets this.
- FunkSVD.FunkSVDRecommender.constructor: NUM_FEATURES is a `nat`. A
  negative count, for which `new HashMap[NUM_FEATURES]` throws
  NegativeArraySizeException, is not modelled.
- Dao.DAO.NumTrainRatingsForUser: it requires a training user, because for
  an unknown user `trainData.get(user).size()` dereferences null. That
  exception is not modelled.
- Dao.DAO.NumTrainRatingsForItem: it requires a training item, because for
  an unknown item `transposed_trainData.get(item).size()` dereferences null.
  That exception is not modelled.
- FunkSVD.FunkSVDRecommender.ComputeAvgs: Java's `glAverage /= 0` gives NaN
  when there are no training ratings. The model keeps the total, 0.0, in
  that case. No prediction or pass reads it then, because there is no user.
- FunkSVD.FunkSVDRecommender.Predict: it requires NUM_FEATURES >= 1,
  because `U[0]` throws otherwise.
- FunkSVD item pseudo-averages: they use the item mean (sum over line
  count) times the number of distinct raters, as Java does. They are
  related to the lines through `ItemMeans`, not through a per-item sum
  lemma.
