/**
 * The data access object: the training ratings in a user view and a transposed
 * (item) view, the test ratings, per-user and per-item mean ratings and counts,
 * and the in-place mean (de)normalisation of either view.
 *
 * The store is built from in-memory (user, item, rating) lines in the order a
 * ratings file would list them.
 */
module Dao {
  import opened Sparse

  /** One line of a ratings file. */
  datatype Triple = Triple(user: Id, item: Id, rating: real)

  /** Why a lookup throws IllegalArgumentException. */
  datatype LookupError =
    | NoTrainRatingsForUser(user: Id)
    | NoTestRatingsForUser(user: Id)
    | NoTestRatingForItem(user: Id, item: Id)

  datatype Result<T> = Ok(value: T) | IllegalArgument(error: LookupError)

  /** The mean returned for a user or item that has no training rating. */
  const DEFAULT_MEAN: real := 3.5

  function Init<T>(s: seq<T>): seq<T>
    requires s != []
  {
    s[..|s| - 1]
  }

  function Last<T>(s: seq<T>): T
    requires s != []
  {
    s[|s| - 1]
  }

  // ---------------------------------------------------------------------------
  // What the lines say, independently of how the store is built
  // ---------------------------------------------------------------------------

  ghost function UsersOf(ts: seq<Triple>): set<Id>
  {
    set t | t in ts :: t.user
  }

  ghost function ItemsOf(ts: seq<Triple>): set<Id>
  {
    set t | t in ts :: t.item
  }

  /** The (user, item) pairs that some line rates. */
  ghost function PairsOf(ts: seq<Triple>): set<(Id, Id)>
  {
    set t | t in ts :: (t.user, t.item)
  }

  lemma SnocSets(ts: seq<Triple>)
    requires ts != []
    ensures UsersOf(ts) == UsersOf(Init(ts)) + {Last(ts).user}
    ensures ItemsOf(ts) == ItemsOf(Init(ts)) + {Last(ts).item}
    ensures PairsOf(ts) == PairsOf(Init(ts)) + {(Last(ts).user, Last(ts).item)}
  {
    assert ts == Init(ts) + [Last(ts)];
  }

  /** The rating of the last line for (u, i): a later duplicate line overrides an earlier one. */
  ghost function LastRating(ts: seq<Triple>, u: Id, i: Id): real
    requires (u, i) in PairsOf(ts)
    decreases |ts|
  {
    SnocSets(ts);
    var t := Last(ts);
    if t.user == u && t.item == i then t.rating else LastRating(Init(ts), u, i)
  }

  /** The sum of the ratings on all lines of user u, duplicates included. */
  ghost function UserRatingSum(ts: seq<Triple>, u: Id): real
    decreases |ts|
  {
    if ts == [] then 0.0
    else UserRatingSum(Init(ts), u) + (if Last(ts).user == u then Last(ts).rating else 0.0)
  }

  /** The sum of the ratings on all lines of item i, duplicates included. */
  ghost function ItemRatingSum(ts: seq<Triple>, i: Id): real
    decreases |ts|
  {
    if ts == [] then 0.0
    else ItemRatingSum(Init(ts), i) + (if Last(ts).item == i then Last(ts).rating else 0.0)
  }

  /** The number of lines of item i, duplicates included. */
  ghost function ItemLineCount(ts: seq<Triple>, i: Id): nat
    decreases |ts|
  {
    if ts == [] then 0
    else ItemLineCount(Init(ts), i) + (if Last(ts).item == i then 1 else 0)
  }

  /** The training half of the constructor: the two views, the means, the item counts and the sizes. */
  method LoadTrainLines(train: seq<Triple>)
      returns (view: Matrix, transposed: Matrix, userMeans: map<Id, real>, itemMeans: map<Id, real>,
               counts: map<Id, int>, n: int, numUsers: int, numItems: int)
    ensures view == UserView(train) && transposed == ItemView(train)
    ensures userMeans == UserMeans(train) && itemMeans == ItemMeans(train) && counts == ItemCounts(train)
    ensures n == |train| && numUsers == |UsersOf(train)| && numItems == |ItemsOf(train)|
    ensures view.Keys == userMeans.Keys && transposed.Keys == itemMeans.Keys
  {
    var userSums, itemSums;
    view, transposed, userSums, itemSums, counts, n := ReadTrainLines(train);
    BuildShape(train);
    numUsers := |view.Keys|;
    numItems := |transposed.Keys|;
    userMeans := DivideUserSums(userSums, view);
    UserMeansFromSums(train, userMeans);
    itemMeans := DivideItemSums(itemSums, counts);
    ItemMeansFromSums(train, itemMeans);
  }

  // ---------------------------------------------------------------------------
  // The store as the constructor builds it, line after line
  // ---------------------------------------------------------------------------

  /** `trainData` (or `testData`) after reading the lines: user -> item -> rating. */
  function UserView(ts: seq<Triple>): Matrix
    decreases |ts|
  {
    if ts == [] then map[]
    else Put(UserView(Init(ts)), Last(ts).user, Last(ts).item, Last(ts).rating)
  }

  /** `transposed_trainData` after reading the lines: item -> user -> rating. */
  function ItemView(ts: seq<Triple>): Matrix
    decreases |ts|
  {
    if ts == [] then map[]
    else Put(ItemView(Init(ts)), Last(ts).item, Last(ts).user, Last(ts).rating)
  }

  /** Adds `r` to the running total under `k`, or starts the total at `r` for a new key. */
  function AddTo(m: map<Id, real>, k: Id, r: real): map<Id, real>
  {
    if k in m then m[k := m[k] + r] else m[k := r]
  }

  /** Counts one more under `k`, or starts the count at 1 for a new key. */
  function Increment(m: map<Id, int>, k: Id): map<Id, int>
  {
    if k in m then m[k := m[k] + 1] else m[k := 1]
  }

  /** `userMeanRatings` before the division: running rating sums per user. */
  function UserSums(ts: seq<Triple>): map<Id, real>
    decreases |ts|
  {
    if ts == [] then map[] else AddTo(UserSums(Init(ts)), Last(ts).user, Last(ts).rating)
  }

  /** `itemMeanRatings` before the division: running rating sums per item. */
  function ItemSums(ts: seq<Triple>): map<Id, real>
    decreases |ts|
  {
    if ts == [] then map[] else AddTo(ItemSums(Init(ts)), Last(ts).item, Last(ts).rating)
  }

  /** `countItemRatings`: lines per item. */
  function ItemCounts(ts: seq<Triple>): map<Id, int>
    decreases |ts|
  {
    if ts == [] then map[] else Increment(ItemCounts(Init(ts)), Last(ts).item)
  }

  lemma {:induction false} UserViewShape(ts: seq<Triple>)
    ensures UserView(ts).Keys == UsersOf(ts)
    ensures forall u :: u in UserView(ts) ==> |UserView(ts)[u]| >= 1
    decreases |ts|
  {
    if ts != [] {
      UserViewShape(Init(ts));
      SnocSets(ts);
    }
  }

  lemma {:induction false} ItemViewShape(ts: seq<Triple>)
    ensures ItemView(ts).Keys == ItemsOf(ts)
    ensures forall i :: i in ItemView(ts) ==> |ItemView(ts)[i]| >= 1
    decreases |ts|
  {
    if ts != [] {
      ItemViewShape(Init(ts));
      SnocSets(ts);
    }
  }

  lemma {:induction false} SumsShape(ts: seq<Triple>)
    ensures UserSums(ts).Keys == UsersOf(ts)
    ensures ItemSums(ts).Keys == ItemCounts(ts).Keys == ItemsOf(ts)
    ensures forall i :: i in ItemCounts(ts) ==> ItemCounts(ts)[i] >= 1
    decreases |ts|
  {
    if ts != [] {
      SumsShape(Init(ts));
      SnocSets(ts);
    }
  }

  /** The tables built from the same lines have the same keys, and no row or count is empty. */
  lemma BuildShape(ts: seq<Triple>)
    ensures UserView(ts).Keys == UserSums(ts).Keys == UsersOf(ts)
    ensures ItemView(ts).Keys == ItemSums(ts).Keys == ItemCounts(ts).Keys == ItemsOf(ts)
    ensures forall u :: u in UserView(ts) ==> |UserView(ts)[u]| >= 1
    ensures forall i :: i in ItemView(ts) ==> |ItemView(ts)[i]| >= 1
    ensures forall i :: i in ItemCounts(ts) ==> ItemCounts(ts)[i] >= 1
  {
    UserViewShape(ts);
    ItemViewShape(ts);
    SumsShape(ts);
  }

  /** Mean rating per user: the sum of all the user's lines over the number of DISTINCT items rated. */
  function UserMeans(ts: seq<Triple>): (means: map<Id, real>)
    ensures means.Keys == UserView(ts).Keys == UsersOf(ts)
  {
    BuildShape(ts);
    map u | u in UserSums(ts) :: UserSums(ts)[u] / |UserView(ts)[u]| as real
  }

  /** Mean rating per item: the sum of all the item's lines over the number of those lines. */
  function ItemMeans(ts: seq<Triple>): (means: map<Id, real>)
    ensures means.Keys == ItemView(ts).Keys == ItemsOf(ts)
  {
    BuildShape(ts);
    map i | i in ItemSums(ts) :: ItemSums(ts)[i] / ItemCounts(ts)[i] as real
  }

  // ---------------------------------------------------------------------------
  // Properties of construction
  // ---------------------------------------------------------------------------

  /**
   * The user view holds a rating for (u, i) exactly when some line rates (u, i),
   * and that rating is the one on the last such line.
   */
  lemma {:induction false} UserViewContents(ts: seq<Triple>, u: Id, i: Id)
    ensures UserView(ts).Keys == UsersOf(ts)
    ensures Has(UserView(ts), u, i) <==> (u, i) in PairsOf(ts)
    ensures Has(UserView(ts), u, i) ==> UserView(ts)[u][i] == LastRating(ts, u, i)
    decreases |ts|
  {
    UserViewShape(ts);
    if ts != [] {
      UserViewContents(Init(ts), u, i);
      SnocSets(ts);
    }
  }

  /**
   * The transposed view holds a rating for (i, u) exactly when some line rates
   * (u, i), and that rating is the one on the last such line.
   */
  lemma {:induction false} ItemViewContents(ts: seq<Triple>, u: Id, i: Id)
    ensures ItemView(ts).Keys == ItemsOf(ts)
    ensures Has(ItemView(ts), i, u) <==> (u, i) in PairsOf(ts)
    ensures Has(ItemView(ts), i, u) ==> ItemView(ts)[i][u] == LastRating(ts, u, i)
    decreases |ts|
  {
    ItemViewShape(ts);
    if ts != [] {
      ItemViewContents(Init(ts), u, i);
      SnocSets(ts);
    }
  }

  /** (u, i, r) is in the user view exactly when (i, u, r) is in the transposed view. */
  lemma ViewsTransposed(ts: seq<Triple>, u: Id, i: Id, r: real)
    ensures (Has(UserView(ts), u, i) && UserView(ts)[u][i] == r)
        <==> (Has(ItemView(ts), i, u) && ItemView(ts)[i][u] == r)
  {
    UserViewContents(ts, u, i);
    ItemViewContents(ts, u, i);
  }

  /** Every item in a user's row of the user view has a line. */
  lemma RatedItemsKnown(ts: seq<Triple>)
    ensures forall u :: u in UserView(ts) ==> UserView(ts)[u].Keys <= ItemsOf(ts)
  {
    forall u, i | u in UserView(ts) && i in UserView(ts)[u]
      ensures i in ItemsOf(ts)
    {
      UserViewContents(ts, u, i);
    }
  }

  /** The per-user and per-item running sums and counts are those of the lines. */
  lemma {:induction false} SumsOfLines(ts: seq<Triple>)
    ensures forall u :: u in UserSums(ts) ==> UserSums(ts)[u] == UserRatingSum(ts, u)
    ensures forall i :: i in ItemSums(ts) ==> ItemSums(ts)[i] == ItemRatingSum(ts, i)
    ensures forall i :: i in ItemCounts(ts) ==> ItemCounts(ts)[i] == ItemLineCount(ts, i)
    ensures forall u :: u !in UserSums(ts) ==> UserRatingSum(ts, u) == 0.0
    ensures forall i :: i !in ItemSums(ts) ==> ItemRatingSum(ts, i) == 0.0 && ItemLineCount(ts, i) == 0
    decreases |ts|
  {
    SumsShape(ts);
    if ts != [] {
      SumsOfLines(Init(ts));
      SumsShape(Init(ts));
    }
  }

  // ---------------------------------------------------------------------------
  // Lookups
  // ---------------------------------------------------------------------------

  /** getTrainRating over the user view. */
  function GetTrainRating(trainData: Matrix, user: Id, item: Id): Result<real>
  {
    if user in trainData then
      Ok(if item in trainData[user] then trainData[user][item] else 0.0)
    else
      IllegalArgument(NoTrainRatingsForUser(user))
  }

  /** getTestRating over the test data. */
  function GetTestRating(testData: Matrix, user: Id, item: Id): Result<real>
  {
    if user in testData then
      if item in testData[user] then Ok(testData[user][item])
      else IllegalArgument(NoTestRatingForItem(user, item))
    else
      IllegalArgument(NoTestRatingsForUser(user))
  }

  /** getUserMeanRating / getItemMeanRating over the matching mean table. */
  function GetMeanRating(means: map<Id, real>, id: Id): real
  {
    if id in means then means[id] else DEFAULT_MEAN
  }

  /** containsTrainRating / containsTransposedTrainRating: total, false for unknown rows. */
  function ContainsRating(m: Matrix, a: Id, b: Id): bool
  {
    a in m && b in m[a]
  }

  /**
   * On a store built from `ts`, getTrainRating throws exactly for a user with no
   * line, returns the last line's rating for a rated pair and 0 for an unrated
   * item of a known user.
   */
  lemma TrainRatingOfLines(ts: seq<Triple>, user: Id, item: Id)
    ensures GetTrainRating(UserView(ts), user, item).IllegalArgument? <==> user !in UsersOf(ts)
    ensures (user, item) in PairsOf(ts) ==>
              GetTrainRating(UserView(ts), user, item) == Ok(LastRating(ts, user, item))
    ensures user in UsersOf(ts) && (user, item) !in PairsOf(ts) ==>
              GetTrainRating(UserView(ts), user, item) == Ok(0.0)
  {
    UserViewContents(ts, user, item);
  }

  /** getTestRating succeeds exactly for a pair some test line rates. */
  lemma TestRatingOfLines(ts: seq<Triple>, user: Id, item: Id)
    ensures GetTestRating(UserView(ts), user, item).Ok? <==> (user, item) in PairsOf(ts)
    ensures (user, item) in PairsOf(ts) ==>
              GetTestRating(UserView(ts), user, item).value == LastRating(ts, user, item)
    ensures user !in UsersOf(ts) ==>
              GetTestRating(UserView(ts), user, item) == IllegalArgument(NoTestRatingsForUser(user))
    ensures user in UsersOf(ts) && (user, item) !in PairsOf(ts) ==>
              GetTestRating(UserView(ts), user, item) == IllegalArgument(NoTestRatingForItem(user, item))
  {
    UserViewContents(ts, user, item);
  }

  /** The contains* probes report exactly the pairs some line rates, in either view. */
  lemma ContainsOfLines(ts: seq<Triple>, user: Id, item: Id)
    ensures ContainsRating(UserView(ts), user, item) <==> (user, item) in PairsOf(ts)
    ensures ContainsRating(ItemView(ts), item, user) <==> (user, item) in PairsOf(ts)
  {
    UserViewContents(ts, user, item);
    ItemViewContents(ts, user, item);
  }

  /**
   * getUserMeanRating: 3.5 for a user without lines, otherwise the rating sum of
   * all the user's lines divided by the number of distinct items the user rated.
   */
  lemma UserMeanOfLines(ts: seq<Triple>, user: Id)
    ensures UserView(ts).Keys == UsersOf(ts)
    ensures user in UsersOf(ts) ==> |UserView(ts)[user]| >= 1
    ensures user !in UsersOf(ts) ==> GetMeanRating(UserMeans(ts), user) == DEFAULT_MEAN
    ensures user in UsersOf(ts) ==>
              GetMeanRating(UserMeans(ts), user)
              == UserRatingSum(ts, user) / |UserView(ts)[user]| as real
  {
    UserViewShape(ts);
    SumsShape(ts);
    SumsOfLines(ts);
    if user in UsersOf(ts) {
      var sum, n := UserSums(ts)[user], |UserView(ts)[user]| as real;
      assert UserMeans(ts)[user] == sum / n;
      assert sum == UserRatingSum(ts, user);
    }
  }

  /**
   * getItemMeanRating: 3.5 for an item without lines, otherwise the rating sum of
   * all the item's lines divided by the number of those lines.
   */
  lemma ItemMeanOfLines(ts: seq<Triple>, item: Id)
    ensures item in ItemsOf(ts) ==> ItemLineCount(ts, item) >= 1
    ensures item !in ItemsOf(ts) ==> GetMeanRating(ItemMeans(ts), item) == DEFAULT_MEAN
    ensures item in ItemsOf(ts) ==>
              GetMeanRating(ItemMeans(ts), item)
              == ItemRatingSum(ts, item) / ItemLineCount(ts, item) as real
  {
    SumsShape(ts);
    SumsOfLines(ts);
    if item in ItemsOf(ts) {
      var sum, n := ItemSums(ts)[item], ItemCounts(ts)[item];
      assert ItemMeans(ts)[item] == sum / n as real;
      assert sum == ItemRatingSum(ts, item) && n == ItemLineCount(ts, item);
    }
  }

  // ---------------------------------------------------------------------------
  // Mean normalisation
  // ---------------------------------------------------------------------------

  /** Every rating of one row moved by the row's mean: subtracted, or added back. */
  function ShiftRow(row: map<Id, real>, mean: real, add: bool): map<Id, real>
  {
    map y | y in row :: if add then row[y] + mean else row[y] - mean
  }

  /** Every row moved by its own mean. */
  function ShiftRows(m: Matrix, means: map<Id, real>, add: bool): Matrix
    requires m.Keys <= means.Keys
  {
    map x | x in m :: ShiftRow(m[x], means[x], add)
  }

  ghost predicate SameShape(a: Matrix, b: Matrix)
  {
    a.Keys == b.Keys && forall x :: x in a ==> a[x].Keys == b[x].Keys
  }

  lemma SameShapeReflexive(a: Matrix)
    ensures SameShape(a, a)
  {
  }

  lemma SameShapeTransitive(a: Matrix, b: Matrix, c: Matrix)
    requires SameShape(a, b) && SameShape(b, c)
    ensures SameShape(a, c)
  {
  }

  /** Adding the means back after subtracting them restores every rating, and vice versa. */
  lemma ShiftRowsRoundTrip(m: Matrix, means: map<Id, real>)
    requires m.Keys <= means.Keys
    ensures SameShape(ShiftRows(m, means, false), m) && SameShape(ShiftRows(m, means, true), m)
    ensures ShiftRows(ShiftRows(m, means, false), means, true) == m
    ensures ShiftRows(ShiftRows(m, means, true), means, false) == m
  {
    var down := ShiftRows(m, means, false);
    var up := ShiftRows(m, means, true);
    forall x | x in m
      ensures ShiftRows(down, means, true)[x] == m[x]
      ensures ShiftRows(up, means, false)[x] == m[x]
    {
      assert ShiftRows(down, means, true)[x].Keys == m[x].Keys;
      assert ShiftRows(up, means, false)[x].Keys == m[x].Keys;
    }
  }

  /**
   * The nested loops of the four (de)normalisation methods: for every row, for
   * every column, the value is replaced by value minus (or plus) the row's mean.
   */
  method ShiftRowsInPlace(m: Matrix, means: map<Id, real>, add: bool) returns (r: Matrix)
    requires m.Keys <= means.Keys
    ensures r == ShiftRows(m, means, add)
  {
    r := m;
    var rows := m.Keys;
    while rows != {}
      invariant rows <= m.Keys && r.Keys == m.Keys
      invariant forall x :: x in rows ==> r[x] == m[x]
      invariant forall x :: x in m && x !in rows ==> r[x] == ShiftRow(m[x], means[x], add)
      decreases rows
    {
      var x := Choose(rows);
      var shifted := ShiftRowInPlace(r[x], means[x], add);
      r := r[x := shifted];
      rows := rows - {x};
    }
    assert r.Keys == ShiftRows(m, means, add).Keys;
    assert forall x :: x in r ==> r[x] == ShiftRows(m, means, add)[x];
  }

  /** The inner loop of the (de)normalisation methods: every rating of one row moved by the mean. */
  method ShiftRowInPlace(row: map<Id, real>, mean: real, add: bool) returns (r: map<Id, real>)
    ensures r == ShiftRow(row, mean, add)
  {
    r := row;
    var cols := row.Keys;
    while cols != {}
      invariant cols <= row.Keys && r.Keys == row.Keys
      invariant forall y :: y in cols ==> r[y] == row[y]
      invariant forall y :: y in row && y !in cols ==> r[y] == (if add then row[y] + mean else row[y] - mean)
      decreases cols
    {
      var y := Choose(cols);
      r := r[y := if add then r[y] + mean else r[y] - mean];
      cols := cols - {y};
    }
    assert forall y :: y in r ==> r[y] == ShiftRow(row, mean, add)[y];
  }


  // ---------------------------------------------------------------------------
  // The constructor's loops
  // ---------------------------------------------------------------------------

  /** Reading line k extends the tables built from the lines before it by that line. */
  lemma ReadStep(ts: seq<Triple>, k: int)
    requires 0 <= k < |ts|
    ensures UserView(ts[..k + 1]) == Put(UserView(ts[..k]), ts[k].user, ts[k].item, ts[k].rating)
    ensures ItemView(ts[..k + 1]) == Put(ItemView(ts[..k]), ts[k].item, ts[k].user, ts[k].rating)
    ensures UserSums(ts[..k + 1]) == AddTo(UserSums(ts[..k]), ts[k].user, ts[k].rating)
    ensures ItemSums(ts[..k + 1]) == AddTo(ItemSums(ts[..k]), ts[k].item, ts[k].rating)
    ensures ItemCounts(ts[..k + 1]) == Increment(ItemCounts(ts[..k]), ts[k].item)
  {
    assert Init(ts[..k + 1]) == ts[..k];
  }

  /** Dividing every user's sum by the size of the user's row gives the user means. */
  lemma UserMeansFromSums(ts: seq<Triple>, means: map<Id, real>)
    requires means.Keys == UserSums(ts).Keys == UserView(ts).Keys
    requires forall u :: u in UserView(ts) ==> |UserView(ts)[u]| >= 1
    requires forall u :: u in UserSums(ts) ==> means[u] == UserSums(ts)[u] / |UserView(ts)[u]| as real
    ensures means == UserMeans(ts)
  {
    BuildShape(ts);
    assert means.Keys == UserMeans(ts).Keys;
  }

  /** Dividing every item's sum by the item's line count gives the item means. */
  lemma ItemMeansFromSums(ts: seq<Triple>, means: map<Id, real>)
    requires means.Keys == ItemSums(ts).Keys == ItemCounts(ts).Keys
    requires forall i :: i in ItemCounts(ts) ==> ItemCounts(ts)[i] >= 1
    requires forall i :: i in ItemSums(ts) ==> means[i] == ItemSums(ts)[i] / ItemCounts(ts)[i] as real
    ensures means == ItemMeans(ts)
  {
    BuildShape(ts);
    assert means.Keys == ItemMeans(ts).Keys;
  }

  /**
   * The loop over the training lines: each line is put into both views, its
   * rating added to the user's and the item's running sums and the item's line
   * count incremented.
   */
  method ReadTrainLines(train: seq<Triple>)
      returns (view: Matrix, transposed: Matrix, userSums: map<Id, real>, itemSums: map<Id, real>,
               counts: map<Id, int>, numOfRatings: int)
    ensures view == UserView(train) && transposed == ItemView(train)
    ensures userSums == UserSums(train) && itemSums == ItemSums(train) && counts == ItemCounts(train)
    ensures numOfRatings == |train|
  {
    view, transposed, userSums, itemSums, counts := map[], map[], map[], map[], map[];
    numOfRatings := 0;
    for k := 0 to |train|
      invariant numOfRatings == k
      invariant view == UserView(train[..k]) && transposed == ItemView(train[..k])
      invariant userSums == UserSums(train[..k]) && itemSums == ItemSums(train[..k])
      invariant counts == ItemCounts(train[..k])
    {
      ReadStep(train, k);
      var user, item, rating := train[k].user, train[k].item, train[k].rating;
      numOfRatings := numOfRatings + 1;
      view := Put(view, user, item, rating);
      transposed := Put(transposed, item, user, rating);
      userSums := AddTo(userSums, user, rating);
      itemSums := AddTo(itemSums, item, rating);
      counts := Increment(counts, item);
    }
    assert train[..|train|] == train;
  }

  /** The loop over the test lines: each line is put into the user view of the test data. */
  method ReadLines(ts: seq<Triple>) returns (view: Matrix)
    ensures view == UserView(ts)
  {
    view := map[];
    for k := 0 to |ts|
      invariant view == UserView(ts[..k])
    {
      ReadStep(ts, k);
      view := Put(view, ts[k].user, ts[k].item, ts[k].rating);
    }
    assert ts[..|ts|] == ts;
  }

  /** Each user's rating sum divided, in place, by the size of the user's row. */
  method DivideUserSums(sums: map<Id, real>, view: Matrix) returns (means: map<Id, real>)
    requires sums.Keys <= view.Keys
    requires forall u :: u in view ==> |view[u]| >= 1
    ensures means.Keys == sums.Keys
    ensures forall u :: u in sums ==> means[u] == sums[u] / |view[u]| as real
  {
    means := sums;
    var users := sums.Keys;
    while users != {}
      invariant users <= sums.Keys && means.Keys == sums.Keys
      invariant forall u :: u in users ==> means[u] == sums[u]
      invariant forall u :: u in sums && u !in users ==> means[u] == sums[u] / |view[u]| as real
      decreases users
    {
      var user := Choose(users);
      means := means[user := means[user] / |view[user]| as real];
      users := users - {user};
    }
  }

  /** Each item's rating sum divided, in place, by the item's line count. */
  method DivideItemSums(sums: map<Id, real>, counts: map<Id, int>) returns (means: map<Id, real>)
    requires sums.Keys <= counts.Keys
    requires forall i :: i in counts ==> counts[i] >= 1
    ensures means.Keys == sums.Keys
    ensures forall i :: i in sums ==> means[i] == sums[i] / counts[i] as real
  {
    means := sums;
    var items := sums.Keys;
    while items != {}
      invariant items <= sums.Keys && means.Keys == sums.Keys
      invariant forall i :: i in items ==> means[i] == sums[i]
      invariant forall i :: i in sums && i !in items ==> means[i] == sums[i] / counts[i] as real
      decreases items
    {
      var item := Choose(items);
      means := means[item := means[item] / counts[item] as real];
      items := items - {item};
    }
  }

  // ---------------------------------------------------------------------------
  // The store
  // ---------------------------------------------------------------------------

  class DAO {
    var trainData: Matrix
    var testData: Matrix
    var userMeanRatings: map<Id, real>
    var itemMeanRatings: map<Id, real>
    var countItemRatings: map<Id, int>
    var transposedTrainData: Matrix
    var numOfUsers: int
    var numOfItems: int
    var numOfRatings: int

    /** The training lines the store was built from. */
    ghost const trainLines: seq<Triple>

    /** The means, counts and sizes are those of the lines; normalisation never touches them. */
    ghost predicate Summary()
      reads this`userMeanRatings, this`itemMeanRatings, this`countItemRatings
      reads this`numOfUsers, this`numOfItems, this`numOfRatings
    {
      && userMeanRatings == UserMeans(trainLines)
      && itemMeanRatings == ItemMeans(trainLines)
      && countItemRatings == ItemCounts(trainLines)
      && numOfUsers == |UsersOf(trainLines)|
      && numOfItems == |ItemsOf(trainLines)|
      && numOfRatings == |trainLines|
    }

    /** Whatever (de)normalisation has been applied, the user view keeps the keys the lines gave it. */
    ghost predicate UserViewKept()
      reads this`trainData
    {
      SameShape(trainData, UserView(trainLines))
    }

    /** Whatever (de)normalisation has been applied, the transposed view keeps the keys the lines gave it. */
    ghost predicate ItemViewKept()
      reads this`transposedTrainData
    {
      SameShape(transposedTrainData, ItemView(trainLines))
    }

    /** Every item a user rated in the training view is a key of the transposed view. */
    ghost predicate ViewsAgree()
      reads this`trainData, this`transposedTrainData
    {
      forall u :: u in trainData ==> trainData[u].Keys <= transposedTrainData.Keys
    }

    ghost predicate Valid()
      reads this
    {
      && Summary() && UserViewKept() && ItemViewKept()
      && trainData.Keys == userMeanRatings.Keys
      && transposedTrainData.Keys == itemMeanRatings.Keys
    }

    /** Reads the training lines and then the test lines (lines 36-120, without the file reading). */
    constructor (train: seq<Triple>, test: seq<Triple>)
      ensures Valid() && trainLines == train
      ensures trainData == UserView(train) && transposedTrainData == ItemView(train)
      ensures testData == UserView(test)
    {
      trainLines := train;
      var view, transposed, userMeans, itemMeans, counts, n, users, items := LoadTrainLines(train);
      trainData, transposedTrainData, userMeanRatings, itemMeanRatings := view, transposed, userMeans, itemMeans;
      countItemRatings, numOfRatings, numOfUsers, numOfItems := counts, n, users, items;
      var testView := ReadLines(test);
      testData := testView;
      new;
      SameShapeReflexive(trainData);
      SameShapeReflexive(transposedTrainData);
    }

    /** numTrainUsers: the number of distinct users with a training line. */
    function NumTrainUsers(): (n: int)
      reads this
      requires Valid()
      ensures n == |UsersOf(trainLines)| && n == |trainData.Keys|
    {
      numOfUsers
    }

    /** numTrainItems: the number of distinct items with a training line. */
    function NumTrainItems(): (n: int)
      reads this
      requires Valid()
      ensures n == |ItemsOf(trainLines)| && n == |transposedTrainData.Keys|
    {
      numOfItems
    }

    /** numTrainRatings: the number of training lines read, a duplicated (user, item) line counted each time. */
    function NumTrainRatings(): (n: int)
      reads this
      requires Valid()
      ensures n == |trainLines|
    {
      numOfRatings
    }

    /** numTrainRatingsForUser: the number of distinct items the user rated; null dereference for an unknown user. */
    function NumTrainRatingsForUser(user: Id): (n: int)
      reads this
      requires Valid() && user in trainData
      ensures n >= 1 && n == |UserView(trainLines)[user]|
    {
      BuildShape(trainLines);
      |trainData[user]|
    }

    /** numTrainRatingsForItem: the number of distinct users who rated the item. */
    function NumTrainRatingsForItem(item: Id): (n: int)
      reads this
      requires Valid() && item in transposedTrainData
      ensures n >= 1 && n == |ItemView(trainLines)[item]|
    {
      BuildShape(trainLines);
      |transposedTrainData[item]|
    }

    /** userMeanNormalize: subtracts each user's mean from that user's ratings in the user view. */
    method UserMeanNormalize()
      requires Valid()
      modifies this`trainData
      ensures Valid()
      ensures trainData == ShiftRows(old(trainData), userMeanRatings, false)
    {
      ghost var before := trainData;
      trainData := ShiftRowsInPlace(trainData, userMeanRatings, false);
      assert Summary() && ItemViewKept();
      ShiftRowsRoundTrip(before, userMeanRatings);
      SameShapeTransitive(trainData, before, UserView(trainLines));
      assert UserViewKept() && trainData.Keys == before.Keys;
    }

    /** userMeanDeNormalize: adds each user's mean back to that user's ratings in the user view. */
    method UserMeanDeNormalize()
      requires Valid()
      modifies this`trainData
      ensures Valid()
      ensures trainData == ShiftRows(old(trainData), userMeanRatings, true)
    {
      ghost var before := trainData;
      trainData := ShiftRowsInPlace(trainData, userMeanRatings, true);
      assert Summary() && ItemViewKept();
      ShiftRowsRoundTrip(before, userMeanRatings);
      SameShapeTransitive(trainData, before, UserView(trainLines));
      assert UserViewKept() && trainData.Keys == before.Keys;
    }

    /** itemMeanNormalize: subtracts each item's mean from that item's ratings in the transposed view. */
    method ItemMeanNormalize()
      requires Valid()
      modifies this`transposedTrainData
      ensures Valid()
      ensures transposedTrainData == ShiftRows(old(transposedTrainData), itemMeanRatings, false)
    {
      ghost var before := transposedTrainData;
      transposedTrainData := ShiftRowsInPlace(transposedTrainData, itemMeanRatings, false);
      assert Summary() && UserViewKept();
      ShiftRowsRoundTrip(before, itemMeanRatings);
      SameShapeTransitive(transposedTrainData, before, ItemView(trainLines));
      assert ItemViewKept() && transposedTrainData.Keys == before.Keys;
    }

    /** itemMeanDeNormalize: adds each item's mean back to that item's ratings in the transposed view. */
    method ItemMeanDeNormalize()
      requires Valid()
      modifies this`transposedTrainData
      ensures Valid()
      ensures transposedTrainData == ShiftRows(old(transposedTrainData), itemMeanRatings, true)
    {
      ghost var before := transposedTrainData;
      transposedTrainData := ShiftRowsInPlace(transposedTrainData, itemMeanRatings, true);
      assert Summary() && UserViewKept();
      ShiftRowsRoundTrip(before, itemMeanRatings);
      SameShapeTransitive(transposedTrainData, before, ItemView(trainLines));
      assert ItemViewKept() && transposedTrainData.Keys == before.Keys;
    }
  }

  /**
   * The keys of a loaded store's two views are the users and the items of
   * its training lines, and every item a user rated has a line.
   */
  lemma ViewsOfLines(d: DAO)
    requires d.Valid()
    ensures d.trainData.Keys == UsersOf(d.trainLines) && d.transposedTrainData.Keys == ItemsOf(d.trainLines)
    ensures d.ViewsAgree()
  {
    ghost var ts := d.trainLines;
    BuildShape(ts);
    RatedItemsKnown(ts);
    forall u | u in d.trainData
      ensures d.trainData[u].Keys <= d.transposedTrainData.Keys
    {
      assert d.trainData[u].Keys == UserView(ts)[u].Keys;
    }
  }
}
