/**
 * The machinery the user-user and the item-item collaborative filters share,
 * written once over a sparse table whose rows are the entities being compared:
 * users (the user view) for user-user, items (the transposed view) for
 * item-item. It covers the smoothed vector cosine similarity, the similarity
 * table kept for one triangle only and its symmetric lookup, the bounded top-K
 * neighbour selection with a minimum priority queue, and the weighted aggregate
 * a prediction is made of.
 */
module Neighborhood {
  import opened Sparse
  import opened Dao
  import opened Base

  // ---------------------------------------------------------------------------
  // Vector cosine similarity
  // ---------------------------------------------------------------------------

  /** The columns both row u and row v rate. */
  ghost function CoRated(m: Matrix, u: Id, v: Id): set<Id>
    requires u in m
  {
    set y | y in m[u] && Has(m, v, y)
  }

  /** Per co-rated column, the product of the two rows' ratings. */
  ghost function Products(m: Matrix, u: Id, v: Id): map<Id, real>
    requires u in m
  {
    map y | y in CoRated(m, u, v) :: m[u][y] * m[v][y]
  }

  /** Per co-rated column, the square of row u's rating. */
  ghost function SquaresOfFirst(m: Matrix, u: Id, v: Id): map<Id, real>
    requires u in m
  {
    map y | y in CoRated(m, u, v) :: m[u][y] * m[u][y]
  }

  /** Per co-rated column, the square of row v's rating. */
  ghost function SquaresOfSecond(m: Matrix, u: Id, v: Id): map<Id, real>
    requires u in m
  {
    map y | y in CoRated(m, u, v) :: m[v][y] * m[v][y]
  }

  lemma SquaresNonNegative(m: Matrix, u: Id, v: Id)
    requires u in m
    ensures 0.0 <= SetSum(CoRated(m, u, v), SquaresOfFirst(m, u, v))
    ensures 0.0 <= SetSum(CoRated(m, u, v), SquaresOfSecond(m, u, v))
  {
    var first, second := SquaresOfFirst(m, u, v), SquaresOfSecond(m, u, v);
    assert forall y :: y in CoRated(m, u, v) ==> 0.0 <= first[y] && 0.0 <= second[y];
    SetSumNonNegative(CoRated(m, u, v), first);
    SetSumNonNegative(CoRated(m, u, v), second);
  }

  lemma ProductNonNegative(a: real, b: real)
    requires 0.0 <= a && 0.0 <= b
    ensures 0.0 <= a * b
  {
  }

  /** The smoothed cosine of a dot product and two squared norms: (num + 1) / (|u| |v| + 1). */
  function Cosine(num: real, squaresU: real, squaresV: real, sqrt: real -> real): real
    requires IsSqrt(sqrt) && 0.0 <= squaresU && 0.0 <= squaresV
  {
    ProductNonNegative(sqrt(squaresU), sqrt(squaresV));
    (num + 1.0) / (sqrt(squaresU) * sqrt(squaresV) + 1.0)
  }

  /**
   * The smoothed vector cosine similarity of rows u and v: the dot product over
   * the co-rated columns plus one, over the product of the two rows' norms on
   * those columns plus one.
   */
  ghost function Similarity(m: Matrix, u: Id, v: Id, sqrt: real -> real): real
    requires u in m && IsSqrt(sqrt)
  {
    SquaresNonNegative(m, u, v);
    Cosine(SetSum(CoRated(m, u, v), Products(m, u, v)),
           SetSum(CoRated(m, u, v), SquaresOfFirst(m, u, v)),
           SetSum(CoRated(m, u, v), SquaresOfSecond(m, u, v)), sqrt)
  }

  /** The formula is symmetric in the two rows. */
  lemma SimilaritySymmetric(m: Matrix, u: Id, v: Id, sqrt: real -> real)
    requires u in m && v in m && IsSqrt(sqrt)
    ensures Similarity(m, u, v, sqrt) == Similarity(m, v, u, sqrt)
  {
    var common := CoRated(m, u, v);
    assert CoRated(m, v, u) == common;
    SetSumCongruent(common, Products(m, u, v), Products(m, v, u));
    SetSumCongruent(common, SquaresOfFirst(m, u, v), SquaresOfSecond(m, v, u));
    SetSumCongruent(common, SquaresOfSecond(m, u, v), SquaresOfFirst(m, v, u));
    SquaresNonNegative(m, u, v);
    var a, b := SetSum(common, SquaresOfFirst(m, u, v)), SetSum(common, SquaresOfSecond(m, u, v));
    assert sqrt(a) * sqrt(b) == sqrt(b) * sqrt(a);
  }

  /** A row's similarity to itself is 1, as the lookup answers without storing it. */
  lemma SimilarityToSelf(m: Matrix, u: Id, sqrt: real -> real)
    requires u in m && IsSqrt(sqrt)
    ensures Similarity(m, u, u, sqrt) == 1.0
  {
    var common := CoRated(m, u, u);
    SquaresNonNegative(m, u, u);
    SetSumCongruent(common, Products(m, u, u), SquaresOfFirst(m, u, u));
    SetSumCongruent(common, SquaresOfSecond(m, u, u), SquaresOfFirst(m, u, u));
    var s := SetSum(common, SquaresOfFirst(m, u, u));
    CosineOfSelf(s, sqrt);
  }

  /** A vector's smoothed cosine with itself is 1: its squared norm is its own dot product. */
  lemma CosineOfSelf(s: real, sqrt: real -> real)
    requires IsSqrt(sqrt) && 0.0 <= s
    ensures Cosine(s, s, s, sqrt) == 1.0
  {
    var d := sqrt(s) * sqrt(s) + 1.0;
    assert d == s + 1.0 && 0.0 < d;
    assert (s + 1.0) / d == d / d == 1.0;
  }

  /** With no co-rated column the similarity is exactly 1. */
  lemma SimilarityWithoutOverlap(m: Matrix, u: Id, v: Id, sqrt: real -> real)
    requires u in m && IsSqrt(sqrt) && CoRated(m, u, v) == {}
    ensures Similarity(m, u, v, sqrt) == 1.0
  {
  }

  /** Adding one more co-rated column adds its product and squares to the three sums. */
  lemma CosineStep(m: Matrix, u: Id, v: Id, seen: set<Id>, item: Id)
    requires u in m && seen <= CoRated(m, u, v) && item !in seen && item in m[u] && Has(m, v, item)
    ensures item in CoRated(m, u, v)
    ensures SetSum(seen + {item}, Products(m, u, v)) == SetSum(seen, Products(m, u, v)) + m[u][item] * m[v][item]
    ensures SetSum(seen + {item}, SquaresOfFirst(m, u, v)) == SetSum(seen, SquaresOfFirst(m, u, v)) + m[u][item] * m[u][item]
    ensures SetSum(seen + {item}, SquaresOfSecond(m, u, v)) == SetSum(seen, SquaresOfSecond(m, u, v)) + m[v][item] * m[v][item]
  {
    assert item in CoRated(m, u, v);
    SetSumAdd(seen, Products(m, u, v), item);
    SetSumAdd(seen, SquaresOfFirst(m, u, v), item);
    SetSumAdd(seen, SquaresOfSecond(m, u, v), item);
  }

  /**
   * The loop of VectorCosineSimilarity: one pass over row u's columns,
   * accumulating the dot product and both squared norms over the columns row v
   * also rates.
   */
  method CoRatedSums(m: Matrix, u: Id, v: Id) returns (num: real, normU: real, normV: real)
    requires u in m
    ensures num == SetSum(CoRated(m, u, v), Products(m, u, v))
    ensures normU == SetSum(CoRated(m, u, v), SquaresOfFirst(m, u, v))
    ensures normV == SetSum(CoRated(m, u, v), SquaresOfSecond(m, u, v))
  {
    ghost var common := CoRated(m, u, v);
    ghost var products, squaresU, squaresV := Products(m, u, v), SquaresOfFirst(m, u, v), SquaresOfSecond(m, u, v);
    num, normU, normV := 0.0, 0.0, 0.0;
    ghost var seen: set<Id> := {};
    var items := m[u].Keys;
    while items != {}
      invariant items <= m[u].Keys
      invariant seen <= common && seen == common - items
      invariant num == SetSum(seen, products)
      invariant normU == SetSum(seen, squaresU)
      invariant normV == SetSum(seen, squaresV)
      decreases items
    {
      var item := Choose(items);
      if ContainsRating(m, v, item) {
        var ru, rv := m[u][item], m[v][item];
        CosineStep(m, u, v, seen, item);
        num := num + ru * rv;
        normU := normU + ru * ru;
        normV := normV + rv * rv;
        seen := seen + {item};
      }
      items := items - {item};
    }
    assert seen == common;
  }

  method VectorCosineSimilarity(m: Matrix, u: Id, v: Id, sqrt: real -> real) returns (sim: real)
    requires u in m && IsSqrt(sqrt)
    ensures sim == Similarity(m, u, v, sqrt)
  {
    var num, normU, normV := CoRatedSums(m, u, v);
    SquaresNonNegative(m, u, v);
    sim := Cosine(num, normU, normV, sqrt);
  }

  // ---------------------------------------------------------------------------
  // The similarity table: one triangle, symmetric lookup
  // ---------------------------------------------------------------------------

  /** The table holds an entry exactly for each pair of row ids a < b. */
  ghost predicate Triangle(sim: Matrix, ids: set<Id>)
  {
    forall a, b :: Has(sim, a, b) <==> a in ids && b in ids && a < b
  }

  /** The entry for every pair a < b of rows is the similarity of the rows. */
  ghost predicate SimilaritiesOf(sim: Matrix, m: Matrix, sqrt: real -> real)
    requires IsSqrt(sqrt)
  {
    forall a, b :: a in m && b in m && a < b ==> Has(sim, a, b) && sim[a][b] == Similarity(m, a, b, sqrt)
  }

  /** getUUSimilarity / getIISimilarity can answer for (u, v) without dereferencing null. */
  predicate Stored(sim: Matrix, u: Id, v: Id)
  {
    u == v || (u < v && Has(sim, u, v)) || (v < u && Has(sim, v, u))
  }

  /** getUUSimilarity / getIISimilarity: the entry of the ordered pair, and 1 for a row with itself. */
  function GetSimilarity(sim: Matrix, u: Id, v: Id): real
    requires Stored(sim, u, v)
  {
    if u < v then sim[u][v] else if u == v then 1.0 else sim[v][u]
  }

  /** The lookup answers for (v, u) whenever it answers for (u, v), with the same value. */
  lemma GetSimilaritySymmetric(sim: Matrix, u: Id, v: Id)
    requires Stored(sim, u, v)
    ensures Stored(sim, v, u) && GetSimilarity(sim, v, u) == GetSimilarity(sim, u, v)
  {
  }

  /**
   * Over a complete triangle, the lookup gives the similarity of the two rows in
   * either order, and 1 for a row with itself: storing half the pairs loses nothing.
   */
  lemma LookupIsSimilarity(sim: Matrix, m: Matrix, sqrt: real -> real, u: Id, v: Id)
    requires IsSqrt(sqrt) && SimilaritiesOf(sim, m, sqrt)
    requires u in m && v in m
    ensures Stored(sim, u, v) && GetSimilarity(sim, u, v) == Similarity(m, u, v, sqrt)
  {
    if u == v {
      SimilarityToSelf(m, u, sqrt);
    } else if v < u {
      SimilaritySymmetric(m, u, v, sqrt);
    }
  }

  /**
   * The inner loop of computeSimilaritybwAllPairs: for row u, an entry for every
   * row v > u, put into u's row of the table (created when missing).
   */
  method PutRow(sim0: Matrix, m: Matrix, u: Id, sqrt: real -> real) returns (sim: Matrix)
    requires u in m && IsSqrt(sqrt)
    ensures forall a, b :: Has(sim, a, b) <==> Has(sim0, a, b) || (a == u && b in m && u < b)
    ensures forall b :: b in m && u < b ==> Has(sim, u, b) && sim[u][b] == Similarity(m, u, b, sqrt)
    ensures forall a, b :: Has(sim0, a, b) && !(a == u && b in m && u < b) ==> Has(sim, a, b) && sim[a][b] == sim0[a][b]
  {
    sim := sim0;
    var others := m.Keys;
    while others != {}
      invariant others <= m.Keys
      invariant forall a, b :: Has(sim, a, b) <==> Has(sim0, a, b) || (a == u && b in m && b !in others && u < b)
      invariant forall b :: b in m && b !in others && u < b ==> Has(sim, u, b) && sim[u][b] == Similarity(m, u, b, sqrt)
      invariant forall a, b :: Has(sim0, a, b) && !(a == u && b in m && b !in others && u < b) ==>
                  Has(sim, a, b) && sim[a][b] == sim0[a][b]
      decreases others
    {
      var v := Choose(others);
      if u < v {
        var s := VectorCosineSimilarity(m, u, v, sqrt);
        if u in sim {
          sim := sim[u := sim[u][v := s]];
        } else {
          sim := sim[u := map[v := s]];
        }
      }
      others := others - {v};
    }
  }

  /**
   * computeSimilaritybwAllPairs: for every pair of rows u < v the similarity is
   * put into the table; entries already there for other pairs stay.
   */
  method PutAllPairs(sim0: Matrix, m: Matrix, sqrt: real -> real) returns (sim: Matrix)
    requires IsSqrt(sqrt)
    ensures forall a, b :: Has(sim, a, b) <==> Has(sim0, a, b) || (a in m && b in m && a < b)
    ensures SimilaritiesOf(sim, m, sqrt)
    ensures forall a, b :: Has(sim0, a, b) && !(a in m && b in m && a < b) ==> Has(sim, a, b) && sim[a][b] == sim0[a][b]
  {
    sim := sim0;
    var rows := m.Keys;
    while rows != {}
      invariant rows <= m.Keys
      invariant forall a, b :: Has(sim, a, b) <==> Has(sim0, a, b) || (a in m && a !in rows && b in m && a < b)
      invariant forall a, b :: a in m && a !in rows && b in m && a < b ==>
                  Has(sim, a, b) && sim[a][b] == Similarity(m, a, b, sqrt)
      invariant forall a, b :: Has(sim0, a, b) && !(a in m && a !in rows && b in m && a < b) ==>
                  Has(sim, a, b) && sim[a][b] == sim0[a][b]
      decreases rows
    {
      var u := Choose(rows);
      sim := PutRow(sim, m, u, sqrt);
      rows := rows - {u};
    }
  }

  /** Filling an empty table, or one already holding exactly the triangle of the rows, gives exactly that triangle. */
  lemma PutAllPairsTriangle(sim0: Matrix, sim: Matrix, m: Matrix)
    requires sim0 == map[] || Triangle(sim0, m.Keys)
    requires forall a, b :: Has(sim, a, b) <==> Has(sim0, a, b) || (a in m && b in m && a < b)
    ensures Triangle(sim, m.Keys)
  {
  }

  /** Over a filled table, the lookup can answer for any two rows. */
  lemma SimilaritiesStored(sim: Matrix, m: Matrix, sqrt: real -> real)
    requires IsSqrt(sqrt) && SimilaritiesOf(sim, m, sqrt)
    ensures forall u, v :: u in m && v in m ==> Stored(sim, u, v)
  {
    forall u, v | u in m && v in m
      ensures Stored(sim, u, v)
    {
      LookupIsSimilarity(sim, m, sqrt, u, v);
    }
  }

  // ---------------------------------------------------------------------------
  // Neighbour selection: a bounded minimum priority queue
  // ---------------------------------------------------------------------------

  /** Some member of a non-empty set of candidates is at least as dissimilar to `self` as every other. */
  lemma {:induction false} LeastSimilarExists(sim: Matrix, self: Id, s: set<Id>)
    requires s != {} && forall x :: x in s ==> Stored(sim, self, x)
    ensures exists x :: x in s && forall y :: y in s ==> GetSimilarity(sim, self, x) <= GetSimilarity(sim, self, y)
    decreases s
  {
    var x := Pick(s);
    if s - {x} != {} {
      LeastSimilarExists(sim, self, s - {x});
      var z :| z in s - {x} && forall y :: y in s - {x} ==> GetSimilarity(sim, self, z) <= GetSimilarity(sim, self, y);
      if GetSimilarity(sim, self, x) <= GetSimilarity(sim, self, z) {
        assert forall y :: y in s ==> GetSimilarity(sim, self, x) <= GetSimilarity(sim, self, y);
      } else {
        assert forall y :: y in s ==> GetSimilarity(sim, self, z) <= GetSimilarity(sim, self, y);
      }
    } else {
      assert s == {x};
    }
  }

  /** pq.peek(): a queued neighbour whose similarity is the least in the queue (ties broken arbitrarily). */
  method PeekLeastSimilar(sim: Matrix, self: Id, queue: set<Id>) returns (min: Id)
    requires queue != {} && forall x :: x in queue ==> Stored(sim, self, x)
    ensures min in queue
    ensures forall y :: y in queue ==> GetSimilarity(sim, self, min) <= GetSimilarity(sim, self, y)
  {
    LeastSimilarExists(sim, self, queue);
    min :| min in queue && forall y :: y in queue ==> GetSimilarity(sim, self, min) <= GetSimilarity(sim, self, y);
  }

  /** A subset is no larger than its superset. */
  lemma SubsetSize<T>(a: set<T>, b: set<T>)
    requires a <= b
    ensures |a| <= |b|
  {
    assert b == a + (b - a);
  }

  function Min(a: int, b: int): int
  {
    if a <= b then a else b
  }

  /**
   * `nbrs` is a top-K choice among `seen`: as many of them as fit in K, and no
   * row left out is more similar to `self` than a row kept.
   */
  ghost predicate TopK(sim: Matrix, self: Id, nbrs: set<Id>, seen: set<Id>, K: int)
    requires forall v :: v in seen ==> Stored(sim, self, v)
  {
    && nbrs <= seen
    && |nbrs| <= K
    && (|nbrs| < K ==> seen <= nbrs)
    && forall a, b :: a in nbrs && b in seen && b !in nbrs ==>
         GetSimilarity(sim, self, b) <= GetSimilarity(sim, self, a)
  }

  /** A top-K choice has K rows, or all of them when there are fewer than K. */
  lemma TopKSize(sim: Matrix, self: Id, nbrs: set<Id>, seen: set<Id>, K: int)
    requires forall v :: v in seen ==> Stored(sim, self, v)
    requires TopK(sim, self, nbrs, seen, K)
    ensures |nbrs| == Min(K, |seen|)
  {
    if |nbrs| < K {
      assert nbrs == seen;
    } else {
      SubsetSize(nbrs, seen);
    }
  }

  /** While the queue is below capacity it holds every row offered, and the next one is added. */
  lemma OfferBelowCapacity(sim: Matrix, self: Id, nbrs: set<Id>, seen: set<Id>, K: int, v: Id)
    requires forall x :: x in seen + {v} ==> Stored(sim, self, x)
    requires v !in seen && TopK(sim, self, nbrs, seen, K) && |nbrs| < K
    ensures TopK(sim, self, nbrs + {v}, seen + {v}, K)
  {
    assert nbrs == seen;
  }

  /**
   * At capacity, a row strictly more similar than the least similar queued one
   * replaces it; any other row is dropped.
   */
  lemma OfferAtCapacity(sim: Matrix, self: Id, nbrs: set<Id>, seen: set<Id>, K: int, v: Id, min: Id)
    requires forall x :: x in seen + {v} ==> Stored(sim, self, x)
    requires K >= 1 && v !in seen && TopK(sim, self, nbrs, seen, K) && |nbrs| >= K
    requires min in nbrs && forall y :: y in nbrs ==> GetSimilarity(sim, self, min) <= GetSimilarity(sim, self, y)
    ensures GetSimilarity(sim, self, min) < GetSimilarity(sim, self, v) ==>
              TopK(sim, self, nbrs - {min} + {v}, seen + {v}, K)
    ensures GetSimilarity(sim, self, v) <= GetSimilarity(sim, self, min) ==>
              TopK(sim, self, nbrs, seen + {v}, K)
  {
    assert |nbrs - {min}| == |nbrs| - 1;
    assert v !in nbrs;
  }

  /**
   * One row offered to the queue in findNeighbors: added while the queue is
   * below capacity K, otherwise put in place of the least similar queued row
   * when strictly more similar than it.
   */
  method Offer(sim: Matrix, self: Id, nbrs: set<Id>, ghost seen: set<Id>, K: int, v: Id) returns (next: set<Id>)
    requires K >= 1
    requires forall x :: x in seen + {v} ==> Stored(sim, self, x)
    requires v !in seen && TopK(sim, self, nbrs, seen, K)
    ensures TopK(sim, self, next, seen + {v}, K)
  {
    if |nbrs| < K {
      OfferBelowCapacity(sim, self, nbrs, seen, K, v);
      next := nbrs + {v};
    } else {
      var min := PeekLeastSimilar(sim, self, nbrs);
      OfferAtCapacity(sim, self, nbrs, seen, K, v, min);
      if GetSimilarity(sim, self, min) < GetSimilarity(sim, self, v) {
        next := nbrs - {min} + {v};
      } else {
        next := nbrs;
      }
    }
  }

  /**
   * findNeighbors: every row other than `self` is offered to a queue of
   * capacity K; the queue's contents are returned.
   */
  method FindNeighbors(sim: Matrix, ids: set<Id>, self: Id, K: int) returns (nbrs: set<Id>)
    requires K >= 1
    requires forall v :: v in ids ==> Stored(sim, self, v)
    ensures TopK(sim, self, nbrs, ids - {self}, K)
  {
    nbrs := {};
    ghost var seen: set<Id> := {};
    var rest := ids;
    while rest != {}
      invariant rest <= ids
      invariant seen == ids - rest - {self}
      invariant TopK(sim, self, nbrs, seen, K)
      decreases rest
    {
      var v := Choose(rest);
      if v != self {
        nbrs := Offer(sim, self, nbrs, seen, K, v);
        seen := seen + {v};
      }
      rest := rest - {v};
    }
    assert seen == ids - {self};
  }

  /** Every row in `done` has a top-K neighbour list among the other rows of `ids`. */
  ghost predicate Neighborhoods(sim: Matrix, ids: set<Id>, done: set<Id>, K: int, lists: map<Id, set<Id>>)
    requires forall u, v :: u in ids && v in ids ==> Stored(sim, u, v)
  {
    && done <= lists.Keys
    && forall u :: u in done && u in ids ==> TopK(sim, u, lists[u], ids - {u}, K)
  }

  /** Putting one more row's neighbour list keeps the lists already put. */
  lemma NeighborhoodsPut(sim: Matrix, ids: set<Id>, done: set<Id>, K: int, lists: map<Id, set<Id>>, u: Id, nbrs: set<Id>)
    requires forall x, y :: x in ids && y in ids ==> Stored(sim, x, y)
    requires Neighborhoods(sim, ids, done, K, lists) && u in ids
    requires TopK(sim, u, nbrs, ids - {u}, K)
    ensures Neighborhoods(sim, ids, done + {u}, K, lists[u := nbrs])
  {
    var next := lists[u := nbrs];
    forall x | x in done + {u} && x in ids
      ensures TopK(sim, x, next[x], ids - {x}, K)
    {
      if x != u {
        assert next[x] == lists[x];
      }
    }
  }

  /**
   * The last loop of train: every row in `ids` gets its neighbourhood among the
   * other rows, put into the neighbour lists (entries for other rows stay).
   */
  method FindAllNeighbors(sim: Matrix, ids: set<Id>, K: int, lists: map<Id, set<Id>>)
      returns (next: map<Id, set<Id>>)
    requires ids == {} || K >= 1
    requires forall u, v :: u in ids && v in ids ==> Stored(sim, u, v)
    ensures next.Keys == lists.Keys + ids
    ensures Neighborhoods(sim, ids, ids, K, next)
    ensures forall u :: u in lists && u !in ids ==> next[u] == lists[u]
  {
    next := lists;
    var rest := ids;
    while rest != {}
      invariant rest <= ids
      invariant next.Keys == lists.Keys + (ids - rest)
      invariant Neighborhoods(sim, ids, ids - rest, K, next)
      invariant forall u :: u in lists && u !in ids ==> next[u] == lists[u]
      decreases rest
    {
      var u := Choose(rest);
      assert forall v :: v in ids ==> Stored(sim, u, v);
      var nbrs := FindNeighbors(sim, ids, u, K);
      NeighborhoodsPut(sim, ids, ids - rest, K, next, u, nbrs);
      next := next[u := nbrs];
      assert ids - rest + {u} == ids - (rest - {u});
      rest := rest - {u};
    }
  }

  /**
   * Over a filled table, a top-K choice among the other rows keeps rows whose
   * similarity to `self`, by the cosine formula itself, is at least that of
   * every row left out.
   */
  lemma NeighborsMostSimilar(sim: Matrix, m: Matrix, sqrt: real -> real, self: Id, nbrs: set<Id>, K: int)
    requires IsSqrt(sqrt) && SimilaritiesOf(sim, m, sqrt) && self in m
    requires forall v :: v in m.Keys - {self} ==> Stored(sim, self, v)
    requires TopK(sim, self, nbrs, m.Keys - {self}, K)
    ensures forall a, b :: a in nbrs && b in m && b != self && b !in nbrs ==>
              Similarity(m, self, b, sqrt) <= Similarity(m, self, a, sqrt)
  {
    forall a, b | a in nbrs && b in m && b != self && b !in nbrs
      ensures Similarity(m, self, b, sqrt) <= Similarity(m, self, a, sqrt)
    {
      LookupIsSimilarity(sim, m, sqrt, self, a);
      LookupIsSimilarity(sim, m, sqrt, self, b);
    }
  }

  // ---------------------------------------------------------------------------
  // The weighted aggregate a prediction is made of
  // ---------------------------------------------------------------------------

  /** The neighbours that rate column `col`. */
  ghost function Raters(m: Matrix, nbrs: set<Id>, col: Id): set<Id>
  {
    set n | n in nbrs && Has(m, n, col)
  }

  /** Per rating neighbour, its rating of `col` weighted by its similarity to `self`. */
  ghost function WeightedRatings(m: Matrix, sim: Matrix, self: Id, nbrs: set<Id>, col: Id): map<Id, real>
    requires forall n :: n in nbrs ==> Stored(sim, self, n)
  {
    map n | n in Raters(m, nbrs, col) :: m[n][col] * GetSimilarity(sim, self, n)
  }

  /** Per rating neighbour, the absolute value of its similarity to `self`. */
  ghost function Weights(m: Matrix, sim: Matrix, self: Id, nbrs: set<Id>, col: Id): map<Id, real>
    requires forall n :: n in nbrs ==> Stored(sim, self, n)
  {
    map n | n in Raters(m, nbrs, col) :: Abs(GetSimilarity(sim, self, n))
  }

  /**
   * The prediction from a neighbourhood: negative infinity when fewer than
   * `minNeighbors` neighbours rate the column, otherwise the mean plus the
   * smoothed weighted average, clipped to the rating scale.
   */
  ghost function NeighborhoodPrediction(m: Matrix, sim: Matrix, self: Id, nbrs: set<Id>, col: Id,
                                        mean: real, minNeighbors: int): Prediction
    requires forall n :: n in nbrs ==> Stored(sim, self, n)
  {
    var raters := Raters(m, nbrs, col);
    if |raters| >= minNeighbors then
      var weights := Weights(m, sim, self, nbrs, col);
      assert forall n :: n in raters ==> 0.0 <= weights[n];
      SetSumNonNegative(raters, weights);
      var prediction := SetSum(raters, WeightedRatings(m, sim, self, nbrs, col));
      var normalizer := SetSum(raters, weights);
      Finite(CeilPrediction(mean + (prediction + 1.0) / (normalizer + 1.0)))
    else
      NegativeInfinity
  }

  /** The running sums of predict's loop over the rating neighbours `seen` so far. */
  ghost predicate RaterTally(seen: set<Id>, weighted: map<Id, real>, weights: map<Id, real>,
                             prediction: real, normalizer: real, countRatings: int)
  {
    && seen <= weighted.Keys && seen <= weights.Keys
    && prediction == SetSum(seen, weighted)
    && normalizer == SetSum(seen, weights)
    && countRatings == |seen|
  }

  /** One more rating neighbour adds its two terms and one to the count. */
  lemma RaterTallyAdd(seen: set<Id>, weighted: map<Id, real>, weights: map<Id, real>,
                      prediction: real, normalizer: real, countRatings: int, n: Id)
    requires RaterTally(seen, weighted, weights, prediction, normalizer, countRatings)
    requires n !in seen && n in weighted && n in weights
    ensures RaterTally(seen + {n}, weighted, weights, prediction + weighted[n], normalizer + weights[n], countRatings + 1)
  {
    SetSumAdd(seen, weighted, n);
    SetSumAdd(seen, weights, n);
  }

  /** One neighbour of the loop of predict: when it rates the column, its terms are added. */
  method RaterStep(m: Matrix, sim: Matrix, self: Id, col: Id, neighbor: Id, ghost seen: set<Id>,
                   ghost weighted: map<Id, real>, ghost weights: map<Id, real>,
                   prediction0: real, normalizer0: real, countRatings0: int)
      returns (prediction: real, normalizer: real, countRatings: int, ghost seen': set<Id>)
    requires Stored(sim, self, neighbor) && neighbor !in seen
    requires neighbor in m && col in m[neighbor] ==>
               && neighbor in weighted && weighted[neighbor] == m[neighbor][col] * GetSimilarity(sim, self, neighbor)
               && neighbor in weights && weights[neighbor] == Abs(GetSimilarity(sim, self, neighbor))
    requires RaterTally(seen, weighted, weights, prediction0, normalizer0, countRatings0)
    ensures seen' == if neighbor in m && col in m[neighbor] then seen + {neighbor} else seen
    ensures RaterTally(seen', weighted, weights, prediction, normalizer, countRatings)
  {
    prediction, normalizer, countRatings, seen' := prediction0, normalizer0, countRatings0, seen;
    if ContainsRating(m, neighbor, col) {
      var rating := m[neighbor][col];
      var s := GetSimilarity(sim, self, neighbor);
      RaterTallyAdd(seen, weighted, weights, prediction, normalizer, countRatings, neighbor);
      prediction := prediction + rating * s;
      normalizer := normalizer + Abs(s);
      countRatings := countRatings + 1;
      seen' := seen + {neighbor};
    }
  }

  /**
   * The loop of predict: over the neighbours, those that rate the column add
   * their weighted rating to the prediction, the absolute similarity to the
   * normaliser, and one to the count. The ghost arguments name the raters and
   * the two term maps the sums are over.
   */
  method RaterSums(m: Matrix, sim: Matrix, self: Id, nbrs: set<Id>, col: Id,
                   ghost raters: set<Id>, ghost weighted: map<Id, real>, ghost weights: map<Id, real>)
      returns (prediction: real, normalizer: real, countRatings: int)
    requires forall n :: n in nbrs ==> Stored(sim, self, n)
    requires forall n :: n in nbrs && n in m && col in m[n] ==> n in raters
    requires raters <= nbrs && raters <= weighted.Keys && raters <= weights.Keys
    requires forall n :: n in raters ==> n in m && col in m[n]
    requires forall n :: n in raters ==> weighted[n] == m[n][col] * GetSimilarity(sim, self, n)
    requires forall n :: n in raters ==> weights[n] == Abs(GetSimilarity(sim, self, n))
    ensures RaterTally(raters, weighted, weights, prediction, normalizer, countRatings)
  {
    prediction, normalizer, countRatings := 0.0, 0.0, 0;
    ghost var seen: set<Id> := {};
    var rest := nbrs;
    while rest != {}
      invariant rest <= nbrs
      invariant forall n :: n in seen <==> n in raters && n !in rest
      invariant RaterTally(seen, weighted, weights, prediction, normalizer, countRatings)
      decreases rest
    {
      var neighbor := Choose(rest);
      prediction, normalizer, countRatings, seen :=
        RaterStep(m, sim, self, col, neighbor, seen, weighted, weights, prediction, normalizer, countRatings);
      rest := rest - {neighbor};
    }
    assert forall n :: n in seen <==> n in raters;
    assert seen == raters;
  }

  /**
   * predict's aggregate: the sums over the rating neighbours, then the count
   * gates the result.
   */
  method Aggregate(m: Matrix, sim: Matrix, self: Id, nbrs: set<Id>, col: Id, mean: real, minNeighbors: int)
      returns (p: Prediction)
    requires forall n :: n in nbrs ==> Stored(sim, self, n)
    ensures p == NeighborhoodPrediction(m, sim, self, nbrs, col, mean, minNeighbors)
    ensures p.NegativeInfinity? <==> |Raters(m, nbrs, col)| < minNeighbors
    ensures p.Finite? ==> MIN_RATING <= p.value <= MAX_RATING
  {
    ghost var raters, weighted, weights :=
      Raters(m, nbrs, col), WeightedRatings(m, sim, self, nbrs, col), Weights(m, sim, self, nbrs, col);
    RaterTerms(m, sim, self, nbrs, col);
    var prediction, normalizer, countRatings := RaterSums(m, sim, self, nbrs, col, raters, weighted, weights);
    if countRatings >= minNeighbors {
      p := Finite(CeilPrediction(mean + (prediction + 1.0) / (normalizer + 1.0)));
    } else {
      p := NegativeInfinity;
    }
  }

  /** The raters and their two term maps meet what the loop of predict needs. */
  lemma RaterTerms(m: Matrix, sim: Matrix, self: Id, nbrs: set<Id>, col: Id)
    requires forall n :: n in nbrs ==> Stored(sim, self, n)
    ensures var raters := Raters(m, nbrs, col);
            var weighted, weights := WeightedRatings(m, sim, self, nbrs, col), Weights(m, sim, self, nbrs, col);
            && (forall n :: n in nbrs && n in m && col in m[n] ==> n in raters)
            && raters <= nbrs && raters <= weighted.Keys && raters <= weights.Keys
            && (forall n :: n in raters ==> n in m && col in m[n])
            && (forall n :: n in raters ==> weighted[n] == m[n][col] * GetSimilarity(sim, self, n))
            && (forall n :: n in raters ==> weights[n] == Abs(GetSimilarity(sim, self, n)))
            && 0.0 <= SetSum(raters, weights)
  {
    var raters, weights := Raters(m, nbrs, col), Weights(m, sim, self, nbrs, col);
    assert forall n :: n in raters ==> 0.0 <= weights[n];
    SetSumNonNegative(raters, weights);
  }

}
