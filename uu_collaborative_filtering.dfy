/**
 * User-user collaborative filtering: after the user view is normalised by the
 * user means, every pair of training users gets a smoothed cosine similarity,
 * every training user a neighbourhood of at most NEIGHBORHOOD_SIZE most similar
 * users, and a rating is predicted from the neighbours that rated the item.
 */
module UserUser {
  import opened Sparse
  import opened Dao
  import opened Base
  import opened Neighborhood

  class UUCollaborativeFiltering {
    const dao: DAO
    const NEIGHBORHOOD_SIZE: int
    const MIN_NEIGHBORS: int
    /** Math.sqrt, passed in. */
    const sqrt: real -> real

    /** user -> its neighbours (the list findNeighbors returns, as a set). */
    var neighbors: map<Id, set<Id>>
    /** u -> (v -> similarity of u and v) for u < v. */
    var similarity: Matrix

    ghost predicate Valid()
      reads this, dao
    {
      IsSqrt(sqrt) && dao.Valid()
    }

    /**
     * The state train leaves: the table holds the similarity of every pair of
     * training users in the user view as it now is, and every training user has
     * a top-K neighbourhood among the other training users.
     */
    ghost predicate Trained()
      reads this, dao
    {
      && Valid()
      && SimilaritiesOf(similarity, dao.trainData, sqrt)
      && (SimilaritiesStored(similarity, dao.trainData, sqrt);
          Neighborhoods(similarity, dao.trainData.Keys, dao.trainData.Keys, NEIGHBORHOOD_SIZE, neighbors))
    }

    constructor(dao: DAO, NEIGHBORHOOD_SIZE: int, MIN_NEIGHBORS: int, sqrt: real -> real)
      ensures this.dao == dao && this.sqrt == sqrt
      ensures this.NEIGHBORHOOD_SIZE == NEIGHBORHOOD_SIZE && this.MIN_NEIGHBORS == MIN_NEIGHBORS
      ensures neighbors == map[] && similarity == map[]
    {
      this.dao := dao;
      this.NEIGHBORHOOD_SIZE := NEIGHBORHOOD_SIZE;
      this.MIN_NEIGHBORS := MIN_NEIGHBORS;
      this.sqrt := sqrt;
      neighbors := map[];
      similarity := map[];
    }

    /**
     * train: normalise the user view by the user means, fill the similarity
     * table for every pair of training users, then give every training user its
     * neighbourhood. The queue cannot be created with a capacity below 1, so
     * NEIGHBORHOOD_SIZE must be at least 1 once there is a user to find
     * neighbours for.
     */
    method Train()
      requires Valid()
      requires dao.trainData == map[] || NEIGHBORHOOD_SIZE >= 1
      modifies dao`trainData, this`similarity, this`neighbors
      ensures Trained()
      ensures dao.trainData == ShiftRows(old(dao.trainData), dao.userMeanRatings, false)
      ensures forall a, b :: Has(similarity, a, b) <==>
                Has(old(similarity), a, b) || (a in dao.trainData && b in dao.trainData && a < b)
      ensures neighbors.Keys == old(neighbors).Keys + dao.trainData.Keys
    {
      dao.UserMeanNormalize();
      similarity := PutAllPairs(similarity, dao.trainData, sqrt);
      SimilaritiesStored(similarity, dao.trainData, sqrt);
      neighbors := FindAllNeighbors(similarity, dao.trainData.Keys, NEIGHBORHOOD_SIZE, neighbors);
    }

    /**
     * predict: the user's neighbours that rated the item vote; negative
     * infinity with fewer than MIN_NEIGHBORS of them, otherwise the user's mean
     * plus the smoothed weighted average, clipped. A user without a neighbour
     * list, or a neighbour the table cannot answer for, is a null dereference.
     */
    method Predict(user: Id, item: Id) returns (p: Prediction)
      requires user in neighbors
      requires forall n :: n in neighbors[user] ==> Stored(similarity, user, n)
      ensures p == NeighborhoodPrediction(dao.trainData, similarity, user, neighbors[user], item,
                                          GetMeanRating(dao.userMeanRatings, user), MIN_NEIGHBORS)
      ensures p.NegativeInfinity? <==> |Raters(dao.trainData, neighbors[user], item)| < MIN_NEIGHBORS
      ensures p.Finite? ==> MIN_RATING <= p.value <= MAX_RATING
    {
      var mean := GetMeanRating(dao.userMeanRatings, user);
      p := Aggregate(dao.trainData, similarity, user, neighbors[user], item, mean, MIN_NEIGHBORS);
    }

    /** After train, predict can be asked about any training user without failing. */
    lemma TrainedPredicts(user: Id)
      requires Trained() && user in dao.trainData
      ensures user in neighbors
      ensures forall n :: n in neighbors[user] ==> Stored(similarity, user, n)
      ensures user !in neighbors[user]
    {
      SimilaritiesStored(similarity, dao.trainData, sqrt);
    }

    /**
     * After train, a training user's neighbours are at least as similar to it,
     * by the cosine of the normalised rating vectors, as every other training
     * user left out, and there are NEIGHBORHOOD_SIZE of them unless fewer
     * other users exist.
     */
    lemma TrainedNeighborsMostSimilar(user: Id)
      requires Trained() && user in dao.trainData
      ensures |neighbors[user]| == Min(NEIGHBORHOOD_SIZE, |dao.trainData.Keys - {user}|)
      ensures forall a, b :: a in neighbors[user] && b in dao.trainData && b != user && b !in neighbors[user] ==>
                Similarity(dao.trainData, user, b, sqrt) <= Similarity(dao.trainData, user, a, sqrt)
    {
      SimilaritiesStored(similarity, dao.trainData, sqrt);
      TopKSize(similarity, user, neighbors[user], dao.trainData.Keys - {user}, NEIGHBORHOOD_SIZE);
      NeighborsMostSimilar(similarity, dao.trainData, sqrt, user, neighbors[user], NEIGHBORHOOD_SIZE);
    }
  }
}
