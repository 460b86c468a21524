/**
 * Item-item collaborative filtering: the same scheme as user-user, over the
 * transposed view. After it is normalised by the item means, every pair of
 * items gets a smoothed cosine similarity, every item a neighbourhood of at
 * most NEIGHBORHOOD_SIZE most similar items, and a rating is predicted from
 * the neighbouring items the user rated.
 */
module ItemItem {
  import opened Sparse
  import opened Dao
  import opened Base
  import opened Neighborhood

  class IICollaborativeFiltering {
    const dao: DAO
    const NEIGHBORHOOD_SIZE: int
    const MIN_NEIGHBORS: int
    /** Math.sqrt, passed in. */
    const sqrt: real -> real

    /** item -> its neighbours (the list findNeighbors returns, as a set). */
    var neighbors: map<Id, set<Id>>
    /** i -> (j -> similarity of i and j) for i < j. */
    var similarity: Matrix

    ghost predicate Valid()
      reads this, dao
    {
      IsSqrt(sqrt) && dao.Valid()
    }

    /**
     * The state train leaves: the table holds the similarity of every pair of
     * items in the transposed view as it now is, and every item has a top-K
     * neighbourhood among the other items.
     */
    ghost predicate Trained()
      reads this, dao
    {
      && Valid()
      && SimilaritiesOf(similarity, dao.transposedTrainData, sqrt)
      && (SimilaritiesStored(similarity, dao.transposedTrainData, sqrt);
          Neighborhoods(similarity, dao.transposedTrainData.Keys, dao.transposedTrainData.Keys,
                        NEIGHBORHOOD_SIZE, neighbors))
    }

    constructor(dao: DAO, NEIGHBORHOOD_SIZE: int, MIN_NEIGHBORS: int, sqrt: real -> real)
      ensures this.dao == dao && this.sqrt == sqrt
      ensures this.NEIGHBORHOOD_SIZE == NEIGHBORHOOD_SIZE && this.MIN_NEIGHBORS == MIN_NEIGHBORS
      ensures neighbors == map[] && similarity == map[]
    {
      this.dao := dao;
      this.NEIGHBORHOOD_SIZE := NEIGHBORHOOD_SIZE;
      this.MIN_NEIGHBORS := MIN_NEIGHBORS;
      this.sqrt := sqrt;
      neighbors := map[];
      similarity := map[];
    }

    /**
     * train: normalise the transposed view by the item means, fill the
     * similarity table for every pair of items, then give every item its
     * neighbourhood. The user view is left as it is. The queue cannot be
     * created with a capacity below 1, so NEIGHBORHOOD_SIZE must be at least 1
     * once there is an item to find neighbours for.
     */
    method Train()
      requires Valid()
      requires dao.transposedTrainData == map[] || NEIGHBORHOOD_SIZE >= 1
      modifies dao`transposedTrainData, this`similarity, this`neighbors
      ensures Trained()
      ensures dao.transposedTrainData == ShiftRows(old(dao.transposedTrainData), dao.itemMeanRatings, false)
      ensures forall a, b :: Has(similarity, a, b) <==>
                Has(old(similarity), a, b) || (a in dao.transposedTrainData && b in dao.transposedTrainData && a < b)
      ensures neighbors.Keys == old(neighbors).Keys + dao.transposedTrainData.Keys
    {
      dao.ItemMeanNormalize();
      similarity := PutAllPairs(similarity, dao.transposedTrainData, sqrt);
      SimilaritiesStored(similarity, dao.transposedTrainData, sqrt);
      neighbors := FindAllNeighbors(similarity, dao.transposedTrainData.Keys, NEIGHBORHOOD_SIZE, neighbors);
    }

    /**
     * predict: negative infinity for an item without a neighbour list;
     * otherwise the item's neighbours that the user rated vote: negative
     * infinity with fewer than MIN_NEIGHBORS of them, else the item's mean plus
     * the smoothed weighted average, clipped. A neighbour the table cannot
     * answer for is a null dereference.
     */
    method Predict(user: Id, item: Id) returns (p: Prediction)
      requires item in neighbors ==> forall n :: n in neighbors[item] ==> Stored(similarity, item, n)
      ensures item !in neighbors ==> p == NegativeInfinity
      ensures item in neighbors ==>
                p == NeighborhoodPrediction(dao.transposedTrainData, similarity, item, neighbors[item], user,
                                            GetMeanRating(dao.itemMeanRatings, item), MIN_NEIGHBORS)
      ensures p.NegativeInfinity? <==>
                item !in neighbors || |Raters(dao.transposedTrainData, neighbors[item], user)| < MIN_NEIGHBORS
      ensures p.Finite? ==> MIN_RATING <= p.value <= MAX_RATING
    {
      if item !in neighbors {
        return NegativeInfinity;
      }
      var mean := GetMeanRating(dao.itemMeanRatings, item);
      p := Aggregate(dao.transposedTrainData, similarity, item, neighbors[item], user, mean, MIN_NEIGHBORS);
    }

    /** After train, predict can be asked about any item without failing. */
    lemma TrainedPredicts(item: Id)
      requires Trained() && item in dao.transposedTrainData
      ensures item in neighbors
      ensures forall n :: n in neighbors[item] ==> Stored(similarity, item, n)
      ensures item !in neighbors[item]
    {
      SimilaritiesStored(similarity, dao.transposedTrainData, sqrt);
    }

    /**
     * After train, an item's neighbours are at least as similar to it, by the
     * cosine of the normalised rating vectors, as every other item left out,
     * and there are NEIGHBORHOOD_SIZE of them unless fewer other items exist.
     */
    lemma TrainedNeighborsMostSimilar(item: Id)
      requires Trained() && item in dao.transposedTrainData
      ensures |neighbors[item]| == Min(NEIGHBORHOOD_SIZE, |dao.transposedTrainData.Keys - {item}|)
      ensures forall a, b :: a in neighbors[item] && b in dao.transposedTrainData && b != item && b !in neighbors[item] ==>
                Similarity(dao.transposedTrainData, item, b, sqrt) <= Similarity(dao.transposedTrainData, item, a, sqrt)
    {
      SimilaritiesStored(similarity, dao.transposedTrainData, sqrt);
      TopKSize(similarity, item, neighbors[item], dao.transposedTrainData.Keys - {item}, NEIGHBORHOOD_SIZE);
      NeighborsMostSimilar(similarity, dao.transposedTrainData, sqrt, item, neighbors[item], NEIGHBORHOOD_SIZE);
    }
  }
}
