/**
 * The Slope One recommender. Training accumulates, for every pair of items
 * (a, b) rated by a common user, the sum of the rating differences r_a - r_b
 * and the number of such users; the sums are then averaged into deviations;
 * and for every training user the prediction of every item the user has not
 * rated is cached as the frequency-weighted average of deviation plus rating
 * over the items the user rated. Predicting is a lookup in that cache.
 */
module SlopeOne {
  import opened Sparse
  import opened Dao
  import opened Base

  /** An integer table: item -> (item -> count). */
  type Counts = Table<int>

  // ---------------------------------------------------------------------------
  // Accumulation: deviation sums and co-rating frequencies
  // ---------------------------------------------------------------------------

  /** A row of a table, or the empty row when the table has none. */
  function RowOf<V>(t: Table<V>, a: Id): map<Id, V>
  {
    if a in t then t[a] else map[]
  }

  /**
   * The inner loop for one user and one of its items rated r: every item b of
   * the user's row adds r - r_b to the deviation sum of (item, b), starting at
   * 0 for a pair not yet there.
   */
  function AddDifferences(sums: map<Id, real>, row: map<Id, real>, r: real): (next: map<Id, real>)
    ensures next.Keys == sums.Keys + row.Keys
  {
    map b | b in sums.Keys + row.Keys ::
      (if b in sums then sums[b] else 0.0) + (if b in row then r - row[b] else 0.0)
  }

  /** The same inner loop on the frequencies: every item b of the row adds one to (item, b). */
  function AddOnes(counts: map<Id, int>, row: map<Id, real>): (next: map<Id, int>)
    ensures next.Keys == counts.Keys + row.Keys
  {
    map b | b in counts.Keys + row.Keys ::
      (if b in counts then counts[b] else 0) + (if b in row then 1 else 0)
  }

  /** The rows of the items `items` of a user's row after the loop has reached them. */
  function AddItemsDifferences(diff: Matrix, row: map<Id, real>, items: set<Id>): (next: Matrix)
    requires items <= row.Keys
    ensures next.Keys == diff.Keys + items
  {
    map a | a in diff.Keys + items ::
      if a in items then AddDifferences(RowOf(diff, a), row, row[a]) else diff[a]
  }

  /** The same, for the frequencies. */
  function AddItemsOnes(freq: Counts, row: map<Id, real>, items: set<Id>): (next: Counts)
    requires items <= row.Keys
    ensures next.Keys == freq.Keys + items
  {
    map a | a in freq.Keys + items ::
      if a in items then AddOnes(RowOf(freq, a), row) else freq[a]
  }

  /** One user's contribution: for every item a of its row, the row of a gets AddDifferences. */
  function AddUserDifferences(diff: Matrix, row: map<Id, real>): Matrix
  {
    AddItemsDifferences(diff, row, row.Keys)
  }

  /** One user's contribution to the frequencies. */
  function AddUserOnes(freq: Counts, row: map<Id, real>): Counts
  {
    AddItemsOnes(freq, row, row.Keys)
  }

  /** The users among `users` that rated both a and b. */
  ghost function CoRaters(m: Matrix, users: set<Id>, a: Id, b: Id): set<Id>
  {
    set u | u in users && u in m && a in m[u] && b in m[u]
  }

  /** Per user that rated both a and b, the difference of its two ratings. */
  ghost function Differences(m: Matrix, a: Id, b: Id): map<Id, real>
  {
    map u | u in m && a in m[u] && b in m[u] :: m[u][a] - m[u][b]
  }

  /** The items some user among `users` rated. */
  ghost function RatedBy(m: Matrix, users: set<Id>): set<Id>
  {
    set u, a | u in users && u in m && a in m[u] :: a
  }

  /** The items some user among `users` rated together with a. */
  ghost function RatedWith(m: Matrix, users: set<Id>, a: Id): set<Id>
  {
    set u, b | u in users && u in m && a in m[u] && b in m[u] :: b
  }

  /** The old entry of a pair, 0 when the pair was not there. */
  function EntryOf(t: Matrix, a: Id, b: Id): real
  {
    if a in t && b in t[a] then t[a][b] else 0.0
  }

  /** The old count of a pair, 0 when the pair was not there. */
  function CountOf(t: Counts, a: Id, b: Id): int
  {
    if a in t && b in t[a] then t[a][b] else 0
  }

  /** Row a of the deviation sums once the users `users` have been added to `diff0`. */
  ghost function AccumulatedDifferencesRow(diff0: Matrix, m: Matrix, users: set<Id>, a: Id): map<Id, real>
  {
    map b | b in RowOf(diff0, a).Keys + RatedWith(m, users, a) ::
      EntryOf(diff0, a, b) + SetSum(CoRaters(m, users, a, b), Differences(m, a, b))
  }

  /**
   * The deviation sums after the users `users` have been added to `diff0`:
   * an entry for every pair already there or co-rated by one of them, holding
   * the old value (0 when new) plus the co-raters' differences.
   */
  ghost function AccumulatedDifferences(diff0: Matrix, m: Matrix, users: set<Id>): Matrix
  {
    map a | a in diff0.Keys + RatedBy(m, users) :: AccumulatedDifferencesRow(diff0, m, users, a)
  }

  /** Row a of the frequencies once the users `users` have been added to `freq0`. */
  ghost function AccumulatedFrequenciesRow(freq0: Counts, m: Matrix, users: set<Id>, a: Id): map<Id, int>
  {
    map b | b in RowOf(freq0, a).Keys + RatedWith(m, users, a) ::
      CountOf(freq0, a, b) + |CoRaters(m, users, a, b)|
  }

  /** The frequencies after the users `users` have been added to `freq0`. */
  ghost function AccumulatedFrequencies(freq0: Counts, m: Matrix, users: set<Id>): Counts
  {
    map a | a in freq0.Keys + RatedBy(m, users) :: AccumulatedFrequenciesRow(freq0, m, users, a)
  }

  lemma RatedByAdd(m: Matrix, users: set<Id>, u: Id)
    requires u in m
    ensures RatedBy(m, users + {u}) == RatedBy(m, users) + m[u].Keys
  {
    forall a | a in m[u]
      ensures a in RatedBy(m, users + {u})
    {
      assert u in users + {u} && u in m && a in m[u];
    }
  }

  lemma RatedWithAdd(m: Matrix, users: set<Id>, u: Id, a: Id)
    requires u in m
    ensures RatedWith(m, users + {u}, a) == RatedWith(m, users, a) + (if a in m[u] then m[u].Keys else {})
  {
    if a in m[u] {
      forall b | b in m[u]
        ensures b in RatedWith(m, users + {u}, a)
      {
        assert u in users + {u} && u in m && a in m[u] && b in m[u];
      }
    }
  }

  lemma RatedWithCoRaters(m: Matrix, users: set<Id>, a: Id, b: Id)
    ensures b in RatedWith(m, users, a) <==> CoRaters(m, users, a, b) != {}
  {
    if CoRaters(m, users, a, b) != {} {
      var u := Pick(CoRaters(m, users, a, b));
      assert u in users && u in m && a in m[u] && b in m[u];
    }
    if b in RatedWith(m, users, a) {
      var u :| u in users && u in m && a in m[u] && b in m[u];
      assert u in CoRaters(m, users, a, b);
    }
  }

  lemma RatedByOfRatedWith(m: Matrix, users: set<Id>, a: Id)
    requires RatedWith(m, users, a) != {}
    ensures a in RatedBy(m, users)
  {
    var b := Pick(RatedWith(m, users, a));
    var u :| u in users && u in m && a in m[u] && b in m[u];
  }

  /** Adding user u changes the sum of a pair only if u rated both of its items, by u's difference. */
  lemma DifferenceStep(m: Matrix, users: set<Id>, u: Id, a: Id, b: Id)
    requires u in m && u !in users
    ensures CoRaters(m, users, a, b) <= Differences(m, a, b).Keys
    ensures a in m[u] && b in m[u] ==>
      SetSum(CoRaters(m, users + {u}, a, b), Differences(m, a, b))
      == SetSum(CoRaters(m, users, a, b), Differences(m, a, b)) + (m[u][a] - m[u][b])
    ensures !(a in m[u] && b in m[u]) ==> CoRaters(m, users + {u}, a, b) == CoRaters(m, users, a, b)
    ensures |CoRaters(m, users + {u}, a, b)|
      == |CoRaters(m, users, a, b)| + (if a in m[u] && b in m[u] then 1 else 0)
  {
    if a in m[u] && b in m[u] {
      assert CoRaters(m, users + {u}, a, b) == CoRaters(m, users, a, b) + {u};
      SetSumAdd(CoRaters(m, users, a, b), Differences(m, a, b), u);
    }
  }

  /** A row of the deviation sums for an item user u rated: u's differences are added to it. */
  lemma DifferencesRowStep(diff0: Matrix, m: Matrix, users: set<Id>, u: Id, a: Id)
    requires u in m && u !in users && a in m[u]
    ensures AddDifferences(AccumulatedDifferencesRow(diff0, m, users, a), m[u], m[u][a])
         == AccumulatedDifferencesRow(diff0, m, users + {u}, a)
  {
    var before := AccumulatedDifferencesRow(diff0, m, users, a);
    var after := AccumulatedDifferencesRow(diff0, m, users + {u}, a);
    var next := AddDifferences(before, m[u], m[u][a]);
    RatedWithAdd(m, users, u, a);
    forall b | b in after
      ensures next[b] == after[b]
    {
      DifferenceEntryStep(diff0, m, users, u, a, b);
    }
    MapsEqual(next, after);
  }

  lemma DifferenceEntryStep(diff0: Matrix, m: Matrix, users: set<Id>, u: Id, a: Id, b: Id)
    requires u in m && u !in users && a in m[u]
    requires b in AccumulatedDifferencesRow(diff0, m, users + {u}, a)
    ensures b in AddDifferences(AccumulatedDifferencesRow(diff0, m, users, a), m[u], m[u][a])
    ensures AddDifferences(AccumulatedDifferencesRow(diff0, m, users, a), m[u], m[u][a])[b]
         == AccumulatedDifferencesRow(diff0, m, users + {u}, a)[b]
  {
    RatedWithAdd(m, users, u, a);
    if b in m[u] {
      DifferenceEntryAdded(diff0, m, users, u, a, b);
    } else {
      DifferenceStep(m, users, u, a, b);
    }
  }

  /** The entry of a pair user u rated both items of. */
  lemma DifferenceEntryAdded(diff0: Matrix, m: Matrix, users: set<Id>, u: Id, a: Id, b: Id)
    requires u in m && u !in users && a in m[u] && b in m[u]
    ensures EntryOf(diff0, a, b) + SetSum(CoRaters(m, users + {u}, a, b), Differences(m, a, b))
         == (if b in AccumulatedDifferencesRow(diff0, m, users, a)
             then AccumulatedDifferencesRow(diff0, m, users, a)[b] else 0.0) + (m[u][a] - m[u][b])
  {
    DifferenceStep(m, users, u, a, b);
    RatedWithCoRaters(m, users, a, b);
  }

  /** A row of the deviation sums for an item user u did not rate is left as it is. */
  lemma DifferencesRowKept(diff0: Matrix, m: Matrix, users: set<Id>, u: Id, a: Id)
    requires u in m && u !in users && a !in m[u]
    ensures AccumulatedDifferencesRow(diff0, m, users, a) == AccumulatedDifferencesRow(diff0, m, users + {u}, a)
  {
    var before := AccumulatedDifferencesRow(diff0, m, users, a);
    var after := AccumulatedDifferencesRow(diff0, m, users + {u}, a);
    RatedWithAdd(m, users, u, a);
    forall b | b in after
      ensures before[b] == after[b]
    {
      DifferenceStep(m, users, u, a, b);
    }
    MapsEqual(before, after);
  }

  /** Row a of an accumulated table is empty when neither the start nor any user has it. */
  lemma AccumulatedRowsEmpty(diff0: Matrix, freq0: Counts, m: Matrix, users: set<Id>, a: Id)
    requires a !in diff0 && a !in freq0 && a !in RatedBy(m, users)
    ensures AccumulatedDifferencesRow(diff0, m, users, a) == map[]
    ensures AccumulatedFrequenciesRow(freq0, m, users, a) == map[]
  {
    if RatedWith(m, users, a) != {} {
      RatedByOfRatedWith(m, users, a);
    }
  }

  /** Adding one user's row to the deviation sums of `users` gives those of `users + {u}`. */
  lemma DifferencesStep(diff0: Matrix, m: Matrix, users: set<Id>, u: Id)
    requires u in m && u !in users
    ensures AddUserDifferences(AccumulatedDifferences(diff0, m, users), m[u])
         == AccumulatedDifferences(diff0, m, users + {u})
  {
    var before := AccumulatedDifferences(diff0, m, users);
    var after := AccumulatedDifferences(diff0, m, users + {u});
    var next := AddUserDifferences(before, m[u]);
    RatedByAdd(m, users, u);
    forall a | a in after
      ensures next[a] == after[a]
    {
      if a in m[u] {
        if a !in before {
          AccumulatedRowsEmpty(diff0, map[], m, users, a);
        }
        DifferencesRowStep(diff0, m, users, u, a);
      } else {
        DifferencesRowKept(diff0, m, users, u, a);
      }
    }
    MapsEqual(next, after);
  }

  lemma FrequencyEntryStep(freq0: Counts, m: Matrix, users: set<Id>, u: Id, a: Id, b: Id)
    requires u in m && u !in users && a in m[u]
    requires b in AccumulatedFrequenciesRow(freq0, m, users + {u}, a)
    ensures b in AddOnes(AccumulatedFrequenciesRow(freq0, m, users, a), m[u])
    ensures AddOnes(AccumulatedFrequenciesRow(freq0, m, users, a), m[u])[b]
         == AccumulatedFrequenciesRow(freq0, m, users + {u}, a)[b]
  {
    RatedWithAdd(m, users, u, a);
    DifferenceStep(m, users, u, a, b);
    if b in m[u] {
      RatedWithCoRaters(m, users, a, b);
    }
  }

  /** A row of the frequencies for an item user u rated: one is added for every item u rated. */
  lemma FrequenciesRowStep(freq0: Counts, m: Matrix, users: set<Id>, u: Id, a: Id)
    requires u in m && u !in users && a in m[u]
    ensures AddOnes(AccumulatedFrequenciesRow(freq0, m, users, a), m[u])
         == AccumulatedFrequenciesRow(freq0, m, users + {u}, a)
  {
    var before := AccumulatedFrequenciesRow(freq0, m, users, a);
    var after := AccumulatedFrequenciesRow(freq0, m, users + {u}, a);
    var next := AddOnes(before, m[u]);
    RatedWithAdd(m, users, u, a);
    forall b | b in after
      ensures next[b] == after[b]
    {
      FrequencyEntryStep(freq0, m, users, u, a, b);
    }
    MapsEqual(next, after);
  }

  /** A row of the frequencies for an item user u did not rate is left as it is. */
  lemma FrequenciesRowKept(freq0: Counts, m: Matrix, users: set<Id>, u: Id, a: Id)
    requires u in m && u !in users && a !in m[u]
    ensures AccumulatedFrequenciesRow(freq0, m, users, a) == AccumulatedFrequenciesRow(freq0, m, users + {u}, a)
  {
    var before := AccumulatedFrequenciesRow(freq0, m, users, a);
    var after := AccumulatedFrequenciesRow(freq0, m, users + {u}, a);
    RatedWithAdd(m, users, u, a);
    forall b | b in after
      ensures before[b] == after[b]
    {
      DifferenceStep(m, users, u, a, b);
    }
    MapsEqual(before, after);
  }

  /** Adding one user's row to the frequencies of `users` gives those of `users + {u}`. */
  lemma FrequenciesStep(freq0: Counts, m: Matrix, users: set<Id>, u: Id)
    requires u in m && u !in users
    ensures AddUserOnes(AccumulatedFrequencies(freq0, m, users), m[u])
         == AccumulatedFrequencies(freq0, m, users + {u})
  {
    var before := AccumulatedFrequencies(freq0, m, users);
    var after := AccumulatedFrequencies(freq0, m, users + {u});
    var next := AddUserOnes(before, m[u]);
    RatedByAdd(m, users, u);
    forall a | a in after
      ensures next[a] == after[a]
    {
      if a in m[u] {
        if a !in before {
          AccumulatedRowsEmpty(map[], freq0, m, users, a);
        }
        FrequenciesRowStep(freq0, m, users, u, a);
      } else {
        FrequenciesRowKept(freq0, m, users, u, a);
      }
    }
    MapsEqual(next, after);
  }

  /** The two tables have the same rows, and every row the same columns. */
  ghost predicate Aligned(diff: Matrix, freq: Counts)
  {
    && diff.Keys == freq.Keys
    && forall a :: a in diff ==> diff[a].Keys == freq[a].Keys
  }

  /** Every stored frequency is at least one. */
  ghost predicate Positive(freq: Counts)
  {
    forall a, b :: a in freq && b in freq[a] ==> 1 <= freq[a][b]
  }

  lemma AccumulatedNone(diff0: Matrix, freq0: Counts, m: Matrix)
    ensures AccumulatedDifferences(diff0, m, {}) == diff0
    ensures AccumulatedFrequencies(freq0, m, {}) == freq0
  {
    DifferencesNone(diff0, m);
    FrequenciesNone(freq0, m);
  }

  lemma DifferencesNone(diff0: Matrix, m: Matrix)
    ensures AccumulatedDifferences(diff0, m, {}) == diff0
  {
    assert RatedBy(m, {}) == {};
    forall a | a in diff0
      ensures AccumulatedDifferences(diff0, m, {})[a] == diff0[a]
    {
      DifferencesRowNone(diff0, m, a);
    }
    MapsEqual(AccumulatedDifferences(diff0, m, {}), diff0);
  }

  lemma DifferencesRowNone(diff0: Matrix, m: Matrix, a: Id)
    requires a in diff0
    ensures AccumulatedDifferencesRow(diff0, m, {}, a) == diff0[a]
  {
    assert RatedWith(m, {}, a) == {};
    forall b | b in diff0[a]
      ensures AccumulatedDifferencesRow(diff0, m, {}, a)[b] == diff0[a][b]
    {
      assert CoRaters(m, {}, a, b) == {};
    }
    MapsEqual(AccumulatedDifferencesRow(diff0, m, {}, a), diff0[a]);
  }

  lemma FrequenciesNone(freq0: Counts, m: Matrix)
    ensures AccumulatedFrequencies(freq0, m, {}) == freq0
  {
    assert RatedBy(m, {}) == {};
    forall a | a in freq0
      ensures AccumulatedFrequencies(freq0, m, {})[a] == freq0[a]
    {
      FrequenciesRowNone(freq0, m, a);
    }
    MapsEqual(AccumulatedFrequencies(freq0, m, {}), freq0);
  }

  lemma FrequenciesRowNone(freq0: Counts, m: Matrix, a: Id)
    requires a in freq0
    ensures AccumulatedFrequenciesRow(freq0, m, {}, a) == freq0[a]
  {
    assert RatedWith(m, {}, a) == {};
    forall b | b in freq0[a]
      ensures AccumulatedFrequenciesRow(freq0, m, {}, a)[b] == freq0[a][b]
    {
      assert CoRaters(m, {}, a, b) == {};
    }
    MapsEqual(AccumulatedFrequenciesRow(freq0, m, {}, a), freq0[a]);
  }

  /** Accumulation keeps the two tables aligned and every frequency positive. */
  lemma AccumulatedWellFormed(diff0: Matrix, freq0: Counts, m: Matrix, users: set<Id>)
    requires Aligned(diff0, freq0) && Positive(freq0)
    ensures Aligned(AccumulatedDifferences(diff0, m, users), AccumulatedFrequencies(freq0, m, users))
    ensures Positive(AccumulatedFrequencies(freq0, m, users))
  {
    var freq := AccumulatedFrequencies(freq0, m, users);
    forall a, b | a in freq && b in freq[a]
      ensures 1 <= freq[a][b]
    {
      if b !in RowOf(freq0, a) {
        RatedWithCoRaters(m, users, a, b);
      }
    }
  }

  /** The loop over a user's items for one of its items, rated r (lines 51-59). */
  method AccumulateItem(sums: map<Id, real>, counts: map<Id, int>, row: map<Id, real>, r: real)
    returns (s: map<Id, real>, c: map<Id, int>)
    requires sums.Keys == counts.Keys
    ensures s == AddDifferences(sums, row, r) && c == AddOnes(counts, row)
  {
    s, c := sums, counts;
    var remaining := row.Keys;
    ghost var done: set<Id> := {};
    while remaining != {}
      invariant done !! remaining && done + remaining == row.Keys
      invariant s.Keys == sums.Keys + done && c.Keys == s.Keys
      invariant forall b :: b in done ==>
                  s[b] == (if b in sums then sums[b] else 0.0) + (r - row[b])
                  && c[b] == (if b in counts then counts[b] else 0) + 1
      invariant forall b :: b in sums && b !in done ==> s[b] == sums[b] && c[b] == counts[b]
      decreases remaining
    {
      var item2 := Choose(remaining);
      var rating2 := row[item2];
      if item2 !in s {
        s := s[item2 := 0.0];
        c := c[item2 := 0];
      }
      s := s[item2 := s[item2] + r - rating2];
      c := c[item2 := c[item2] + 1];
      remaining := remaining - {item2};
      done := done + {item2};
    }
    MapsEqual(s, AddDifferences(sums, row, r));
    MapsEqual(c, AddOnes(counts, row));
  }

  lemma AddItemsNone(diff: Matrix, freq: Counts, row: map<Id, real>)
    ensures AddItemsDifferences(diff, row, {}) == diff && AddItemsOnes(freq, row, {}) == freq
  {
    MapsEqual(AddItemsDifferences(diff, row, {}), diff);
    MapsEqual(AddItemsOnes(freq, row, {}), freq);
  }

  /** Reaching one more item of the user's row replaces that item's deviation row and nothing else. */
  lemma AddItemsDifferencesStep(diff: Matrix, row: map<Id, real>, items: set<Id>, item: Id)
    requires items <= row.Keys && item in row && item !in items
    ensures RowOf(AddItemsDifferences(diff, row, items), item) == RowOf(diff, item)
    ensures AddItemsDifferences(diff, row, items)[item := AddDifferences(RowOf(diff, item), row, row[item])]
         == AddItemsDifferences(diff, row, items + {item})
  {
    var before := AddItemsDifferences(diff, row, items);
    var after := AddItemsDifferences(diff, row, items + {item});
    var next := before[item := AddDifferences(RowOf(diff, item), row, row[item])];
    forall a | a in after
      ensures next[a] == after[a]
    {
    }
    MapsEqual(next, after);
  }

  /** Reaching one more item of the user's row replaces that item's frequency row and nothing else. */
  lemma AddItemsOnesStep(freq: Counts, row: map<Id, real>, items: set<Id>, item: Id)
    requires items <= row.Keys && item in row && item !in items
    ensures RowOf(AddItemsOnes(freq, row, items), item) == RowOf(freq, item)
    ensures AddItemsOnes(freq, row, items)[item := AddOnes(RowOf(freq, item), row)]
         == AddItemsOnes(freq, row, items + {item})
  {
    var before := AddItemsOnes(freq, row, items);
    var after := AddItemsOnes(freq, row, items + {item});
    var next := before[item := AddOnes(RowOf(freq, item), row)];
    forall a | a in after
      ensures next[a] == after[a]
    {
    }
    MapsEqual(next, after);
  }

  lemma AddItemsAligned(diff: Matrix, freq: Counts, row: map<Id, real>, items: set<Id>)
    requires items <= row.Keys && Aligned(diff, freq)
    ensures Aligned(AddItemsDifferences(diff, row, items), AddItemsOnes(freq, row, items))
  {
  }

  /**
   * One pass of the loop over a user's items (lines 42-59): the rows of item
   * start empty when new, then the user's row is added to them.
   */
  method AccumulateUserItem(d: Matrix, f: Counts, row: map<Id, real>, item: Id) returns (d': Matrix, f': Counts)
    requires item in row
    requires item in d ==> item in f && d[item].Keys == f[item].Keys
    ensures d' == d[item := AddDifferences(RowOf(d, item), row, row[item])]
    ensures f' == f[item := AddOnes(if item in d then f[item] else map[], row)]
  {
    var itemDiff0, itemFreq0 := if item in d then d[item] else map[], if item in d then f[item] else map[];
    var rating := row[item];
    var itemDiff, itemFreq := AccumulateItem(itemDiff0, itemFreq0, row, rating);
    d' := d[item := itemDiff];
    f' := f[item := itemFreq];
  }

  /** The loop over one user's items (lines 41-60): the user's row is added to both tables. */
  method AccumulateUser(diff: Matrix, freq: Counts, row: map<Id, real>) returns (d: Matrix, f: Counts)
    requires Aligned(diff, freq)
    ensures d == AddUserDifferences(diff, row) && f == AddUserOnes(freq, row)
  {
    d, f := diff, freq;
    AddItemsNone(diff, freq, row);
    var remaining := row.Keys;
    ghost var done: set<Id> := {};
    while remaining != {}
      invariant done !! remaining && done + remaining == row.Keys
      invariant d == AddItemsDifferences(diff, row, done) && f == AddItemsOnes(freq, row, done)
      decreases remaining
    {
      var item := Choose(remaining);
      AddItemsAligned(diff, freq, row, done);
      AddItemsDifferencesStep(diff, row, done, item);
      AddItemsOnesStep(freq, row, done, item);
      d, f := AccumulateUserItem(d, f, row, item);
      remaining := remaining - {item};
      done := done + {item};
    }
    assert done == row.Keys;
  }

  /**
   * The first loop of train (lines 40-61): starting from the tables as they
   * are, every training user's row is added.
   */
  method Accumulate(diff0: Matrix, freq0: Counts, m: Matrix) returns (d: Matrix, f: Counts)
    requires Aligned(diff0, freq0) && Positive(freq0)
    ensures d == AccumulatedDifferences(diff0, m, m.Keys) && f == AccumulatedFrequencies(freq0, m, m.Keys)
    ensures Aligned(d, f) && Positive(f)
  {
    d, f := diff0, freq0;
    AccumulatedNone(diff0, freq0, m);
    var remaining := m.Keys;
    ghost var done: set<Id> := {};
    while remaining != {}
      invariant done !! remaining && done + remaining == m.Keys
      invariant d == AccumulatedDifferences(diff0, m, done)
      invariant f == AccumulatedFrequencies(freq0, m, done)
      decreases remaining
    {
      var user := Choose(remaining);
      AccumulatedWellFormed(diff0, freq0, m, done);
      d, f := AccumulateUser(d, f, m[user]);
      DifferencesStep(diff0, m, done, user);
      FrequenciesStep(freq0, m, done, user);
      remaining := remaining - {user};
      done := done + {user};
    }
    assert done == m.Keys;
    AccumulatedWellFormed(diff0, freq0, m, m.Keys);
  }

  // ---------------------------------------------------------------------------
  // Averaging: deviations
  // ---------------------------------------------------------------------------

  /** A deviation row: every sum divided by its frequency. */
  function AveragedRow(sums: map<Id, real>, counts: map<Id, int>): (avg: map<Id, real>)
    requires forall b :: b in sums ==> b in counts && counts[b] != 0
    ensures avg.Keys == sums.Keys
  {
    map b | b in sums :: sums[b] / counts[b] as real
  }

  /** The deviations: every accumulated sum divided by the number of users it sums over. */
  ghost function Averaged(diff: Matrix, freq: Counts): (avg: Matrix)
    requires Aligned(diff, freq) && Positive(freq)
    ensures avg.Keys == diff.Keys
    ensures Aligned(avg, freq)
  {
    map a | a in diff :: AveragedRow(diff[a], freq[a])
  }

  /** The inner averaging loop (lines 67-68). */
  method AverageRow(sums: map<Id, real>, counts: map<Id, int>) returns (avg: map<Id, real>)
    requires forall b :: b in sums ==> b in counts && counts[b] != 0
    ensures avg == AveragedRow(sums, counts)
  {
    avg := sums;
    var remaining := sums.Keys;
    ghost var done: set<Id> := {};
    while remaining != {}
      invariant done !! remaining && done + remaining == sums.Keys && avg.Keys == sums.Keys
      invariant forall b :: b in done ==> avg[b] == sums[b] / counts[b] as real
      invariant forall b :: b in remaining ==> avg[b] == sums[b]
      decreases remaining
    {
      var item2 := Choose(remaining);
      avg := avg[item2 := avg[item2] / counts[item2] as real];
      remaining := remaining - {item2};
      done := done + {item2};
    }
    MapsEqual(avg, AveragedRow(sums, counts));
  }

  /** The second loop of train (lines 63-69): every row of sums becomes a row of deviations. */
  method Average(diff: Matrix, freq: Counts) returns (d: Matrix)
    requires Aligned(diff, freq) && Positive(freq)
    ensures d == Averaged(diff, freq)
  {
    d := diff;
    var remaining := diff.Keys;
    ghost var done: set<Id> := {};
    while remaining != {}
      invariant done !! remaining && done + remaining == diff.Keys && d.Keys == diff.Keys
      invariant forall a :: a in done ==> d[a] == AveragedRow(diff[a], freq[a])
      invariant forall a :: a in remaining ==> d[a] == diff[a]
      decreases remaining
    {
      var item := Choose(remaining);
      var itemDiff := AverageRow(d[item], freq[item]);
      d := d[item := itemDiff];
      remaining := remaining - {item};
      done := done + {item};
    }
    MapsEqual(d, Averaged(diff, freq));
  }

  // ---------------------------------------------------------------------------
  // Predictions: the per-user cache
  // ---------------------------------------------------------------------------

  /** The items among `items` (items a user rated) that have a frequency with item j. */
  ghost function Voters(freq: Counts, j: Id, items: set<Id>): set<Id>
  {
    set i | i in items && j in freq && i in freq[j]
  }

  /** Per item i the user rated and that shares users with j: freq(j, i) * (dev(j, i) + r_i). */
  ghost function VoteTerms(diff: Matrix, freq: Counts, row: map<Id, real>, j: Id): map<Id, real>
  {
    map i | i in row && j in diff && i in diff[j] && j in freq && i in freq[j] ::
      freq[j][i] as real * (diff[j][i] + row[i])
  }

  /** Per item i the user rated and that shares users with j: freq(j, i). */
  ghost function WeightTerms(freq: Counts, row: map<Id, real>, j: Id): map<Id, int>
  {
    map i | i in row && j in freq && i in freq[j] :: freq[j][i]
  }

  lemma VotersWithinTerms(diff: Matrix, freq: Counts, row: map<Id, real>, j: Id, items: set<Id>)
    requires Aligned(diff, freq) && items <= row.Keys
    ensures Voters(freq, j, items) <= VoteTerms(diff, freq, row, j).Keys
    ensures Voters(freq, j, items) <= WeightTerms(freq, row, j).Keys
  {
  }

  /** The weighted vote for item j from the rated items `items`: the numerator of the prediction. */
  ghost function VoteSum(diff: Matrix, freq: Counts, row: map<Id, real>, j: Id, items: set<Id>): real
    requires Aligned(diff, freq) && items <= row.Keys
  {
    VotersWithinTerms(diff, freq, row, j, items);
    SetSum(Voters(freq, j, items), VoteTerms(diff, freq, row, j))
  }

  /** The total frequency behind the vote for item j: the denominator of the prediction. */
  ghost function WeightSum(diff: Matrix, freq: Counts, row: map<Id, real>, j: Id, items: set<Id>): int
    requires Aligned(diff, freq) && items <= row.Keys
  {
    VotersWithinTerms(diff, freq, row, j, items);
    IntSetSum(Voters(freq, j, items), WeightTerms(freq, row, j))
  }

  /** The numerators once the rated items `items` have voted, for every item some of them reached. */
  ghost function VoteSums(diff: Matrix, freq: Counts, row: map<Id, real>, items: set<Id>): map<Id, real>
    requires Aligned(diff, freq) && items <= row.Keys
  {
    map j | j in diff && Voters(freq, j, items) != {} :: VoteSum(diff, freq, row, j, items)
  }

  /** The denominators once the rated items `items` have voted. */
  ghost function WeightSums(diff: Matrix, freq: Counts, row: map<Id, real>, items: set<Id>): map<Id, int>
    requires Aligned(diff, freq) && items <= row.Keys
  {
    map j | j in diff && Voters(freq, j, items) != {} :: WeightSum(diff, freq, row, j, items)
  }

  /**
   * The predictions cached for a user with training row `row`: for every item
   * j of the deviation table the user did not rate and that shares users with
   * one of the items the user rated, the frequency-weighted average of
   * dev(j, i) + r_i over those items i.
   */
  ghost function CachedPredictions(diff: Matrix, freq: Counts, row: map<Id, real>): (cache: map<Id, real>)
    requires Aligned(diff, freq)
    ensures cache.Keys <= diff.Keys
    ensures forall j :: j in cache ==> j !in row
  {
    map j | j in diff && j !in row && Voters(freq, j, row.Keys) != {} && WeightSum(diff, freq, row, j, row.Keys) > 0 ::
      VoteSum(diff, freq, row, j, row.Keys) / WeightSum(diff, freq, row, j, row.Keys) as real
  }

  /** The items whose deviation row has a frequency with item i. */
  ghost function Sharing(diff: Matrix, freq: Counts, i: Id): set<Id>
  {
    set j | j in diff && j in freq && i in freq[j]
  }

  /** The loop over the deviation rows for one rated item i with rating r: every row sharing users with i votes. */
  ghost function AddVotes(preds: map<Id, real>, diff: Matrix, freq: Counts, i: Id, r: real): map<Id, real>
    requires Aligned(diff, freq)
  {
    map j | j in preds.Keys + Sharing(diff, freq, i) ::
      (if j in preds then preds[j] else 0.0)
      + (if j in Sharing(diff, freq, i) then freq[j][i] as real * (diff[j][i] + r) else 0.0)
  }

  /** The same loop on the denominators. */
  ghost function AddWeights(freqs: map<Id, int>, diff: Matrix, freq: Counts, i: Id): map<Id, int>
  {
    map j | j in freqs.Keys + Sharing(diff, freq, i) ::
      (if j in freqs then freqs[j] else 0) + (if j in Sharing(diff, freq, i) then freq[j][i] else 0)
  }

  /** What the vote loop knows at its end, stated entry by entry, gives AddVotes and AddWeights. */
  lemma VotesReached(preds: map<Id, real>, freqs: map<Id, int>, preds0: map<Id, real>, freqs0: map<Id, int>,
                     diff: Matrix, freq: Counts, i: Id, r: real, reached: set<Id>)
    requires Aligned(diff, freq) && reached <= diff.Keys
    requires forall j :: j in diff ==> (j in reached <==> i in freq[j])
    requires preds0.Keys == freqs0.Keys
    requires forall j :: j in preds <==> j in preds0 || j in reached
    requires forall j :: j in freqs <==> j in preds
    requires forall j :: j in reached ==>
               preds[j] == (if j in preds0 then preds0[j] else 0.0) + freq[j][i] as real * (diff[j][i] + r)
               && freqs[j] == (if j in freqs0 then freqs0[j] else 0) + freq[j][i]
    requires forall j :: j in preds0 && j !in reached ==> preds[j] == preds0[j]
    requires forall j :: j in freqs0 && j !in reached ==> freqs[j] == freqs0[j]
    ensures preds == AddVotes(preds0, diff, freq, i, r) && freqs == AddWeights(freqs0, diff, freq, i)
  {
    forall j | j in reached
      ensures j in Sharing(diff, freq, i)
    {
    }
    forall j | j in Sharing(diff, freq, i)
      ensures j in reached
    {
      assert j in diff && i in freq[j];
    }
    assert reached == Sharing(diff, freq, i);
    MapsEqual(preds, AddVotes(preds0, diff, freq, i, r));
    MapsEqual(freqs, AddWeights(freqs0, diff, freq, i));
  }

  /** The loop over the deviation rows for one item the user rated (lines 77-91). */
  method VoteItem(preds0: map<Id, real>, freqs0: map<Id, int>, diff: Matrix, freq: Counts, i: Id, r: real)
    returns (preds: map<Id, real>, freqs: map<Id, int>)
    requires Aligned(diff, freq) && preds0.Keys == freqs0.Keys
    ensures preds == AddVotes(preds0, diff, freq, i, r) && freqs == AddWeights(freqs0, diff, freq, i)
  {
    preds, freqs := preds0, freqs0;
    var remaining := diff.Keys;
    ghost var seen: set<Id> := {};
    ghost var reached: set<Id> := {};
    while remaining != {}
      invariant remaining <= diff.Keys
      invariant forall j :: j in seen <==> j in diff && j !in remaining
      invariant VotesSoFar(preds0, freqs0, diff, freq, i, r, seen, reached, preds, freqs)
      decreases remaining
    {
      var diffitem := Choose(remaining);
      preds, freqs, seen, reached := VoteDiffItem(preds0, freqs0, diff, freq, i, r, diffitem, seen, reached, preds, freqs);
      remaining := remaining - {diffitem};
    }
    SetsEqual(seen, diff.Keys);
    VotesReached(preds, freqs, preds0, freqs0, diff, freq, i, r, reached);
  }

  /** After the items in `seen`, of which those in `reached` share users with i: the votes and weights so far. */
  ghost predicate VotesSoFar(preds0: map<Id, real>, freqs0: map<Id, int>, diff: Matrix, freq: Counts, i: Id, r: real,
                             seen: set<Id>, reached: set<Id>, preds: map<Id, real>, freqs: map<Id, int>)
    requires Aligned(diff, freq) && preds0.Keys == freqs0.Keys
  {
    && seen <= diff.Keys && reached <= seen
    && (forall j :: j in seen ==> (j in reached <==> i in freq[j]))
    && (forall j :: j in preds <==> j in preds0 || j in reached)
    && (forall j :: j in freqs <==> j in preds)
    && (forall j :: j in reached ==>
          preds[j] == (if j in preds0 then preds0[j] else 0.0) + freq[j][i] as real * (diff[j][i] + r)
          && freqs[j] == (if j in freqs0 then freqs0[j] else 0) + freq[j][i])
    && (forall j :: j in preds0 && j !in reached ==> preds[j] == preds0[j] && freqs[j] == freqs0[j])
  }

  /** One item of the vote loop: an item sharing users with i gets its term, starting from 0 when new. */
  method VoteDiffItem(preds0: map<Id, real>, freqs0: map<Id, int>, diff: Matrix, freq: Counts, i: Id, r: real,
                   diffitem: Id, ghost seen: set<Id>, ghost reached: set<Id>,
                   predsIn: map<Id, real>, freqsIn: map<Id, int>)
      returns (preds: map<Id, real>, freqs: map<Id, int>, ghost seen': set<Id>, ghost reached': set<Id>)
    requires Aligned(diff, freq) && preds0.Keys == freqs0.Keys
    requires diffitem in diff && diffitem !in seen
    requires VotesSoFar(preds0, freqs0, diff, freq, i, r, seen, reached, predsIn, freqsIn)
    ensures seen' == seen + {diffitem}
    ensures VotesSoFar(preds0, freqs0, diff, freq, i, r, seen', reached', preds, freqs)
  {
    preds, freqs, seen', reached' := predsIn, freqsIn, seen + {diffitem}, reached;
    var itemDiff := diff[diffitem];
    var itemFreq := freq[diffitem];
    if i in itemFreq {
      var f := itemFreq[i];
      // an item reached for the first time starts at 0 in both maps
      var pred, weight := if diffitem in preds then preds[diffitem] else 0.0, if diffitem in preds then freqs[diffitem] else 0;
      preds := preds[diffitem := pred + f as real * (itemDiff[i] + r)];
      freqs := freqs[diffitem := weight + f];
      reached' := reached + {diffitem};
    }
  }

  /** One more rated item i adds its term to the vote of every item j that shares users with it. */
  lemma VoteStep(diff: Matrix, freq: Counts, row: map<Id, real>, items: set<Id>, i: Id, j: Id)
    requires Aligned(diff, freq) && items <= row.Keys && i in row && i !in items && j in diff
    ensures i in freq[j] ==> Voters(freq, j, items + {i}) == Voters(freq, j, items) + {i}
    ensures i in freq[j] ==> VoteSum(diff, freq, row, j, items + {i})
                             == VoteSum(diff, freq, row, j, items) + freq[j][i] as real * (diff[j][i] + row[i])
    ensures i in freq[j] ==> WeightSum(diff, freq, row, j, items + {i})
                             == WeightSum(diff, freq, row, j, items) + freq[j][i]
    ensures i !in freq[j] ==> Voters(freq, j, items + {i}) == Voters(freq, j, items)
    ensures i !in freq[j] ==> VoteSum(diff, freq, row, j, items + {i}) == VoteSum(diff, freq, row, j, items)
    ensures i !in freq[j] ==> WeightSum(diff, freq, row, j, items + {i}) == WeightSum(diff, freq, row, j, items)
  {
    VotersWithinTerms(diff, freq, row, j, items);
    if i in freq[j] {
      assert Voters(freq, j, items + {i}) == Voters(freq, j, items) + {i};
      SetSumAdd(Voters(freq, j, items), VoteTerms(diff, freq, row, j), i);
      IntSetSumAdd(Voters(freq, j, items), WeightTerms(freq, row, j), i);
    } else {
      assert Voters(freq, j, items + {i}) == Voters(freq, j, items);
    }
  }

  lemma VoteSumsNone(diff: Matrix, freq: Counts, row: map<Id, real>)
    requires Aligned(diff, freq)
    ensures VoteSums(diff, freq, row, {}) == map[] && WeightSums(diff, freq, row, {}) == map[]
  {
    assert forall j :: Voters(freq, j, {}) == {};
  }

  lemma VoteEntryStep(diff: Matrix, freq: Counts, row: map<Id, real>, items: set<Id>, i: Id, j: Id)
    requires Aligned(diff, freq) && items <= row.Keys && i in row && i !in items && j in diff
    ensures j in AddVotes(VoteSums(diff, freq, row, items), diff, freq, i, row[i])
            <==> j in VoteSums(diff, freq, row, items + {i})
    ensures j in VoteSums(diff, freq, row, items + {i}) ==>
              AddVotes(VoteSums(diff, freq, row, items), diff, freq, i, row[i])[j]
              == VoteSums(diff, freq, row, items + {i})[j]
  {
    VoteStep(diff, freq, row, items, i, j);
  }

  lemma WeightEntryStep(diff: Matrix, freq: Counts, row: map<Id, real>, items: set<Id>, i: Id, j: Id)
    requires Aligned(diff, freq) && items <= row.Keys && i in row && i !in items && j in diff
    ensures j in AddWeights(WeightSums(diff, freq, row, items), diff, freq, i)
            <==> j in WeightSums(diff, freq, row, items + {i})
    ensures j in WeightSums(diff, freq, row, items + {i}) ==>
              AddWeights(WeightSums(diff, freq, row, items), diff, freq, i)[j]
              == WeightSums(diff, freq, row, items + {i})[j]
  {
    VoteStep(diff, freq, row, items, i, j);
  }

  /** After rated item i votes, the numerators are those of the items voted so far plus i. */
  lemma VoteSumsStep(diff: Matrix, freq: Counts, row: map<Id, real>, items: set<Id>, i: Id)
    requires Aligned(diff, freq) && items <= row.Keys && i in row && i !in items
    ensures AddVotes(VoteSums(diff, freq, row, items), diff, freq, i, row[i]) == VoteSums(diff, freq, row, items + {i})
  {
    var next := AddVotes(VoteSums(diff, freq, row, items), diff, freq, i, row[i]);
    var after := VoteSums(diff, freq, row, items + {i});
    assert next.Keys <= diff.Keys && after.Keys <= diff.Keys;
    forall j | j in diff
      ensures (j in next <==> j in after) && (j in after ==> next[j] == after[j])
    {
      VoteEntryStep(diff, freq, row, items, i, j);
    }
    MapsEqual(next, after);
  }

  /** After rated item i votes, the denominators are those of the items voted so far plus i. */
  lemma WeightSumsStep(diff: Matrix, freq: Counts, row: map<Id, real>, items: set<Id>, i: Id)
    requires Aligned(diff, freq) && items <= row.Keys && i in row && i !in items
    ensures AddWeights(WeightSums(diff, freq, row, items), diff, freq, i) == WeightSums(diff, freq, row, items + {i})
  {
    var next := AddWeights(WeightSums(diff, freq, row, items), diff, freq, i);
    var after := WeightSums(diff, freq, row, items + {i});
    assert next.Keys <= diff.Keys && after.Keys <= diff.Keys;
    forall j | j in diff
      ensures (j in next <==> j in after) && (j in after ==> next[j] == after[j])
    {
      WeightEntryStep(diff, freq, row, items, i, j);
    }
    MapsEqual(next, after);
  }

  /** The loop over the items the user rated (lines 75-92): every one of them votes. */
  method VoteAll(diff: Matrix, freq: Counts, row: map<Id, real>) returns (preds: map<Id, real>, freqs: map<Id, int>)
    requires Aligned(diff, freq)
    ensures preds == VoteSums(diff, freq, row, row.Keys) && freqs == WeightSums(diff, freq, row, row.Keys)
  {
    preds, freqs := map[], map[];
    VoteSumsNone(diff, freq, row);
    var remaining := row.Keys;
    ghost var done: set<Id> := {};
    while remaining != {}
      invariant done !! remaining && done + remaining == row.Keys
      invariant preds == VoteSums(diff, freq, row, done) && freqs == WeightSums(diff, freq, row, done)
      decreases remaining
    {
      var item := Choose(remaining);
      var rating := row[item];
      VoteSumsStep(diff, freq, row, done, item);
      WeightSumsStep(diff, freq, row, done, item);
      preds, freqs := VoteItem(preds, freqs, diff, freq, item, rating);
      remaining := remaining - {item};
      done := done + {item};
    }
    assert done == row.Keys;
  }

  /** The finished cache: unrated items with a positive denominator, each numerator divided by it. */
  function Finalized(preds: map<Id, real>, freqs: map<Id, int>, row: map<Id, real>): (cache: map<Id, real>)
    requires preds.Keys <= freqs.Keys
    ensures cache.Keys <= preds.Keys
    ensures forall j :: j in cache ==> j !in row
  {
    map j | j in preds && j !in row && freqs[j] > 0 :: preds[j] / freqs[j] as real
  }

  /**
   * The loop over the deviation rows that finishes a user's cache (lines
   * 94-105): rated items are removed, the others divided by their denominator,
   * or removed when it is not positive.
   */
  method Finish(preds0: map<Id, real>, freqs: map<Id, int>, row: map<Id, real>, keys: set<Id>)
    returns (preds: map<Id, real>)
    requires preds0.Keys <= keys && preds0.Keys == freqs.Keys
    ensures preds == Finalized(preds0, freqs, row)
  {
    preds := preds0;
    var remaining := keys;
    ghost var done: set<Id> := {};
    while remaining != {}
      invariant done !! remaining && done + remaining == keys
      invariant forall j :: j in preds <==> j in preds0 && (j in done ==> j !in row && freqs[j] > 0)
      invariant forall j :: j in preds ==> preds[j] == if j in done then preds0[j] / freqs[j] as real else preds0[j]
      decreases remaining
    {
      var item := Choose(remaining);
      if item in row {
        preds := preds - {item};
      } else if item in preds {
        var val := preds[item];
        var freq := freqs[item];
        if freq > 0 {
          preds := preds[item := val / freq as real];
        } else {
          preds := preds - {item};
        }
      }
      remaining := remaining - {item};
      done := done + {item};
    }
    assert preds0.Keys <= done;
    forall j
      ensures j in preds <==> j in Finalized(preds0, freqs, row)
    {
      if j in preds0 {
        assert j in done;
      }
    }
    MapsEqual(preds, Finalized(preds0, freqs, row));
  }

  /** Finishing the voted sums of all the user's items gives the cached predictions. */
  lemma CacheFinalized(diff: Matrix, freq: Counts, row: map<Id, real>)
    requires Aligned(diff, freq)
    ensures Finalized(VoteSums(diff, freq, row, row.Keys), WeightSums(diff, freq, row, row.Keys), row)
         == CachedPredictions(diff, freq, row)
  {
    MapsEqual(Finalized(VoteSums(diff, freq, row, row.Keys), WeightSums(diff, freq, row, row.Keys), row),
              CachedPredictions(diff, freq, row));
  }

  lemma SumsSameKeys(diff: Matrix, freq: Counts, row: map<Id, real>, items: set<Id>)
    requires Aligned(diff, freq) && items <= row.Keys
    ensures VoteSums(diff, freq, row, items).Keys == WeightSums(diff, freq, row, items).Keys
    ensures VoteSums(diff, freq, row, items).Keys <= diff.Keys
  {
  }

  /** The body of the loop over the training users (lines 72-105): one user's cache. */
  method UserCache(diff: Matrix, freq: Counts, row: map<Id, real>) returns (preds: map<Id, real>)
    requires Aligned(diff, freq)
    ensures preds == CachedPredictions(diff, freq, row)
  {
    var sums, freqs := VoteAll(diff, freq, row);
    SumsSameKeys(diff, freq, row, row.Keys);
    preds := Finish(sums, freqs, row, diff.Keys);
    CacheFinalized(diff, freq, row);
  }

  /** The third loop of train (lines 71-107): every training user's cache is (re)placed. */
  method CacheAll(diff: Matrix, freq: Counts, m: Matrix, predictions0: Matrix) returns (predictions: Matrix)
    requires Aligned(diff, freq)
    ensures predictions.Keys == predictions0.Keys + m.Keys
    ensures forall u :: u in m ==> predictions[u] == CachedPredictions(diff, freq, m[u])
    ensures forall u :: u in predictions0 && u !in m ==> predictions[u] == predictions0[u]
  {
    predictions := predictions0;
    var remaining := m.Keys;
    ghost var done: set<Id> := {};
    while remaining != {}
      invariant done !! remaining && done + remaining == m.Keys
      invariant predictions.Keys == predictions0.Keys + done
      invariant forall u :: u in done ==> predictions[u] == CachedPredictions(diff, freq, m[u])
      invariant forall u :: u in predictions0 && u !in done ==> predictions[u] == predictions0[u]
      decreases remaining
    {
      var user := Choose(remaining);
      var preds := UserCache(diff, freq, m[user]);
      predictions := predictions[user := preds];
      remaining := remaining - {user};
      done := done + {user};
    }
  }

  /** The deviations train leaves: the accumulated sums averaged by the accumulated frequencies. */
  ghost function Deviations(diff0: Matrix, freq0: Counts, m: Matrix): Matrix
    requires Aligned(diff0, freq0) && Positive(freq0)
  {
    AccumulatedWellFormed(diff0, freq0, m, m.Keys);
    Averaged(AccumulatedDifferences(diff0, m, m.Keys), AccumulatedFrequencies(freq0, m, m.Keys))
  }

  /** The mean of f over the non-empty set s. */
  ghost function Mean(s: set<Id>, f: map<Id, real>): real
    requires s <= f.Keys && s != {}
  {
    SetSum(s, f) / |s| as real
  }

  lemma MeanNegate(s: set<Id>, f: map<Id, real>, g: map<Id, real>)
    requires s <= f.Keys && s <= g.Keys && s != {}
    requires forall k :: k in s ==> g[k] == -f[k]
    ensures Mean(s, g) == -Mean(s, f)
  {
    assert forall k :: k in s ==> g[k] == -f[k];
    SetSumNegate(s, f, g);
    var n := |s| as real;
    assert (-SetSum(s, f)) / n == -(SetSum(s, f) / n);
  }

  lemma MeanZero(s: set<Id>, f: map<Id, real>)
    requires s <= f.Keys && s != {}
    requires forall k :: k in s ==> f[k] == 0.0
    ensures Mean(s, f) == 0.0
  {
    assert forall k :: k in s ==> f[k] == 0.0;
    SetSumZero(s, f);
    var n := |s| as real;
    assert 0.0 / n == 0.0;
  }

  // ---------------------------------------------------------------------------
  // What training from empty tables computes
  // ---------------------------------------------------------------------------

  /**
   * From empty tables, a pair (a, b) has a frequency exactly when some
   * training user rated both items, and the frequency is the number of such
   * users.
   */
  lemma FreshFrequencies(m: Matrix, a: Id, b: Id)
    ensures var freq := AccumulatedFrequencies(map[], m, m.Keys);
      && (a in freq && b in freq[a] <==> CoRaters(m, m.Keys, a, b) != {})
      && (a in freq && b in freq[a] ==> freq[a][b] == |CoRaters(m, m.Keys, a, b)| >= 1)
  {
    RatedWithCoRaters(m, m.Keys, a, b);
    if RatedWith(m, m.Keys, a) != {} {
      RatedByOfRatedWith(m, m.Keys, a);
    }
  }

  /** From empty tables, the frequency of (a, b) is that of (b, a). */
  lemma FrequenciesSymmetric(m: Matrix, a: Id, b: Id)
    ensures var freq := AccumulatedFrequencies(map[], m, m.Keys);
      && (a in freq && b in freq[a] <==> b in freq && a in freq[b])
      && (a in freq && b in freq[a] ==> freq[a][b] == freq[b][a])
  {
    FreshFrequencies(m, a, b);
    FreshFrequencies(m, b, a);
    assert CoRaters(m, m.Keys, a, b) == CoRaters(m, m.Keys, b, a);
  }

  /**
   * From empty tables, the deviation of (a, b) exists exactly when some user
   * rated both, and is the mean of r_a - r_b over those users.
   */
  lemma FreshDeviation(m: Matrix, a: Id, b: Id)
    ensures a in Deviations(map[], map[], m) && b in Deviations(map[], map[], m)[a]
            <==> CoRaters(m, m.Keys, a, b) != {}
    ensures a in Deviations(map[], map[], m) && b in Deviations(map[], map[], m)[a] ==>
              CoRaters(m, m.Keys, a, b) != {}
              && Deviations(map[], map[], m)[a][b] == Mean(CoRaters(m, m.Keys, a, b), Differences(m, a, b))
  {
    FreshFrequencies(m, a, b);
  }

  /** From empty tables, the deviation of (b, a) is minus that of (a, b). */
  lemma DeviationsAntisymmetric(m: Matrix, a: Id, b: Id)
    ensures a in Deviations(map[], map[], m) && b in Deviations(map[], map[], m)[a]
            <==> b in Deviations(map[], map[], m) && a in Deviations(map[], map[], m)[b]
    ensures a in Deviations(map[], map[], m) && b in Deviations(map[], map[], m)[a] ==>
              Deviations(map[], map[], m)[b][a] == -Deviations(map[], map[], m)[a][b]
  {
    FreshDeviation(m, a, b);
    FreshDeviation(m, b, a);
    var users := CoRaters(m, m.Keys, a, b);
    assert CoRaters(m, m.Keys, b, a) == users;
    if users != {} {
      MeanNegate(users, Differences(m, a, b), Differences(m, b, a));
    }
  }

  /** From empty tables, an item rated by some user has deviation 0 from itself. */
  lemma DeviationToSelf(m: Matrix, a: Id)
    ensures a in Deviations(map[], map[], m) && a in Deviations(map[], map[], m)[a] <==> a in RatedBy(m, m.Keys)
    ensures a in Deviations(map[], map[], m) && a in Deviations(map[], map[], m)[a] ==>
              Deviations(map[], map[], m)[a][a] == 0.0
  {
    FreshDeviation(m, a, a);
    var users := CoRaters(m, m.Keys, a, a);
    if a in RatedBy(m, m.Keys) {
      var u :| u in m.Keys && u in m && a in m[u];
      assert u in users;
    }
    if users != {} {
      MeanZero(users, Differences(m, a, a));
    }
  }

  // ---------------------------------------------------------------------------
  // What the cache holds
  // ---------------------------------------------------------------------------

  /**
   * With every frequency positive, a user's cache has an entry for exactly the
   * items of the deviation table the user did not rate and that share users
   * with some item the user rated.
   */
  lemma CachedItems(diff: Matrix, freq: Counts, row: map<Id, real>, j: Id)
    requires Aligned(diff, freq) && Positive(freq)
    ensures j in CachedPredictions(diff, freq, row) <==> j in diff && j !in row && Voters(freq, j, row.Keys) != {}
  {
    if j in diff && Voters(freq, j, row.Keys) != {} {
      VotersWithinTerms(diff, freq, row, j, row.Keys);
      assert forall i :: i in Voters(freq, j, row.Keys) ==> 1 <= WeightTerms(freq, row, j)[i];
      IntSetSumPositive(Voters(freq, j, row.Keys), WeightTerms(freq, row, j));
    }
  }

  // ---------------------------------------------------------------------------
  // The recommender
  // ---------------------------------------------------------------------------

  class SlopeOneRecommender {
    const dao: DAO
    /** item -> (item -> deviation; during training, the sum of differences). */
    var itemItemDiff: Matrix
    /** item -> (item -> number of users that rated both). */
    var itemItemFreq: Counts
    /** user -> (item -> cached prediction). */
    var predictions: Matrix

    /** The two tables have the same pairs, and every pair was counted at least once. */
    ghost predicate Valid()
      reads this
    {
      Aligned(itemItemDiff, itemItemFreq) && Positive(itemItemFreq)
    }

    /** Every training user's cache holds its cached predictions from the current tables. */
    ghost predicate Trained()
      reads this, dao
    {
      && Valid()
      && forall u :: u in dao.trainData ==>
           u in predictions && predictions[u] == CachedPredictions(itemItemDiff, itemItemFreq, dao.trainData[u])
    }

    constructor(dao: DAO)
      ensures this.dao == dao
      ensures itemItemDiff == map[] && itemItemFreq == map[] && predictions == map[]
      ensures Valid()
    {
      this.dao := dao;
      itemItemDiff := map[];
      itemItemFreq := map[];
      predictions := map[];
    }

    /**
     * train: add every training user's differences and counts to the tables,
     * average them into deviations, then cache every training user's
     * predictions. The training data is only read.
     */
    method Train()
      requires Valid()
      modifies this`itemItemDiff, this`itemItemFreq, this`predictions
      ensures Valid() && Trained()
      ensures itemItemFreq == AccumulatedFrequencies(old(itemItemFreq), dao.trainData, dao.trainData.Keys)
      ensures itemItemDiff == Deviations(old(itemItemDiff), old(itemItemFreq), dao.trainData)
      ensures predictions.Keys == old(predictions).Keys + dao.trainData.Keys
      ensures forall u :: u in old(predictions) && u !in dao.trainData ==> predictions[u] == old(predictions)[u]
    {
      var sums, freqs := Accumulate(itemItemDiff, itemItemFreq, dao.trainData);
      itemItemFreq := freqs;
      itemItemDiff := Average(sums, freqs);
      predictions := CacheAll(itemItemDiff, itemItemFreq, dao.trainData, predictions);
    }

    /**
     * predict: negative infinity when the user has no cache or the cache has
     * no entry for the item, otherwise the cached value clipped to the rating
     * scale.
     */
    method Predict(user: Id, item: Id) returns (p: Prediction)
      ensures (user !in predictions || item !in predictions[user]) <==> p == NegativeInfinity
      ensures user in predictions && item in predictions[user] ==>
                p == Finite(CeilPrediction(predictions[user][item]))
      ensures p.Finite? ==> MIN_RATING <= p.value <= MAX_RATING
    {
      if user !in predictions || item !in predictions[user] {
        return NegativeInfinity;
      }
      return Finite(CeilPrediction(predictions[user][item]));
    }
  }
}
