/**
 * Nested-map sparse tables, as the recommenders keep them in nested HashMaps,
 * and order-independent sums over the key sets they iterate.
 */
module Sparse {

  /** Users and items are identified by integer ids. */
  type Id = int

  /** A sparse table: row id -> (column id -> value). */
  type Table<V> = map<Id, map<Id, V>>

  /** A sparse table of ratings (or of similarities, deviations, ...). */
  type Matrix = Table<real>

  /** Row `a` exists and holds a value at column `b`: `m.containsKey(a) && m.get(a).containsKey(b)`. */
  predicate Has<V>(m: Table<V>, a: Id, b: Id)
  {
    a in m && b in m[a]
  }

  /**
   * `m.get(a).put(b, v)` when row `a` exists, otherwise a fresh row holding
   * only `b` is put under `a`.
   */
  function Put<V>(m: Table<V>, a: Id, b: Id, v: V): (r: Table<V>)
    ensures r.Keys == m.Keys + {a}
    ensures Has(r, a, b) && r[a][b] == v
    ensures forall x :: x in m && x != a ==> r[x] == m[x]
    ensures a in m ==> r[a].Keys == m[a].Keys + {b}
    ensures a !in m ==> r[a].Keys == {b}
    ensures forall y :: a in m && y in m[a] && y != b ==> r[a][y] == m[a][y]
  {
    if a in m then m[a := m[a][b := v]] else m[a := map[b := v]]
  }

  /** Sets with the same members are equal. */
  lemma SetsEqual(a: set<Id>, b: set<Id>)
    requires forall x :: x in a <==> x in b
    ensures a == b
  {
    assert forall x :: x in a ==> x in b;
    assert forall x :: x in b ==> x in a;
  }

  /** Maps with the same keys and the same value under every key are equal. */
  lemma MapsEqual<V>(x: map<Id, V>, y: map<Id, V>)
    requires forall k :: k in x <==> k in y
    requires forall k :: k in x ==> x[k] == y[k]
    ensures x == y
  {
    SetsEqual(x.Keys, y.Keys);
    assert forall k :: k in x ==> x[k] == y[k];
  }

  /** Some element of a non-empty set, always the same one for the same set. */
  ghost function Pick<K>(s: set<K>): (k: K)
    requires s != {}
    ensures k in s
  {
    var k :| k in s; k
  }

  /**
   * Takes some element of a non-empty key set, as iterating a HashMap's key set
   * does: which one comes first is left open.
   */
  method Choose<K>(s: set<K>) returns (k: K)
    requires s != {}
    ensures k in s
  {
    k :| k in s;
  }

  /** The sum of `f` over the finite set `s`, in no particular order. */
  ghost function SetSum<K>(s: set<K>, f: map<K, real>): real
    requires s <= f.Keys
    decreases s
  {
    if s == {} then 0.0 else f[Pick(s)] + SetSum(s - {Pick(s)}, f)
  }

  /** The sum does not depend on the order: any element can be taken out first. */
  lemma {:induction false} SetSumRemove<K>(s: set<K>, f: map<K, real>, k: K)
    requires s <= f.Keys && k in s
    ensures SetSum(s, f) == f[k] + SetSum(s - {k}, f)
    decreases s
  {
    var x := Pick(s);
    if x != k {
      SetSumRemove(s - {x}, f, k);
      SetSumRemove(s - {k}, f, x);
      assert s - {x} - {k} == s - {k} - {x};
    }
  }

  /** Adding one new element to the summed set adds its term. */
  lemma SetSumAdd<K>(s: set<K>, f: map<K, real>, k: K)
    requires s <= f.Keys && k in f && k !in s
    ensures SetSum(s + {k}, f) == SetSum(s, f) + f[k]
  {
    SetSumRemove(s + {k}, f, k);
    assert s + {k} - {k} == s;
  }

  /** Two term maps that agree on `s` have the same sum over `s`. */
  lemma {:induction false} SetSumCongruent<K>(s: set<K>, f: map<K, real>, g: map<K, real>)
    requires s <= f.Keys && s <= g.Keys
    requires forall k :: k in s ==> f[k] == g[k]
    ensures SetSum(s, f) == SetSum(s, g)
    decreases s
  {
    if s != {} {
      SetSumCongruent(s - {Pick(s)}, f, g);
    }
  }

  /** A sum of non-negative terms is non-negative. */
  lemma {:induction false} SetSumNonNegative<K>(s: set<K>, f: map<K, real>)
    requires s <= f.Keys
    requires forall k :: k in s ==> 0.0 <= f[k]
    ensures 0.0 <= SetSum(s, f)
    decreases s
  {
    if s != {} {
      SetSumNonNegative(s - {Pick(s)}, f);
    }
  }

  /** Negating every term negates the sum. */
  lemma {:induction false} SetSumNegate<K>(s: set<K>, f: map<K, real>, g: map<K, real>)
    requires s <= f.Keys && s <= g.Keys
    requires forall k :: k in s ==> g[k] == -f[k]
    ensures SetSum(s, g) == -SetSum(s, f)
    decreases s
  {
    if s != {} {
      SetSumNegate(s - {Pick(s)}, f, g);
    }
  }

  /** A sum of zero terms is zero. */
  lemma {:induction false} SetSumZero<K>(s: set<K>, f: map<K, real>)
    requires s <= f.Keys
    requires forall k :: k in s ==> f[k] == 0.0
    ensures SetSum(s, f) == 0.0
    decreases s
  {
    if s != {} {
      SetSumZero(s - {Pick(s)}, f);
    }
  }

  /** Integer counterpart of SetSum, for the integer frequency tables. */
  ghost function IntSetSum<K>(s: set<K>, f: map<K, int>): int
    requires s <= f.Keys
    decreases s
  {
    if s == {} then 0 else f[Pick(s)] + IntSetSum(s - {Pick(s)}, f)
  }

  lemma {:induction false} IntSetSumRemove<K>(s: set<K>, f: map<K, int>, k: K)
    requires s <= f.Keys && k in s
    ensures IntSetSum(s, f) == f[k] + IntSetSum(s - {k}, f)
    decreases s
  {
    var x := Pick(s);
    if x != k {
      IntSetSumRemove(s - {x}, f, k);
      IntSetSumRemove(s - {k}, f, x);
      assert s - {x} - {k} == s - {k} - {x};
    }
  }

  lemma IntSetSumAdd<K>(s: set<K>, f: map<K, int>, k: K)
    requires s <= f.Keys && k in f && k !in s
    ensures IntSetSum(s + {k}, f) == IntSetSum(s, f) + f[k]
  {
    IntSetSumRemove(s + {k}, f, k);
    assert s + {k} - {k} == s;
  }

  /** A sum of positive integers over a non-empty set is positive. */
  lemma {:induction false} IntSetSumPositive<K>(s: set<K>, f: map<K, int>)
    requires s <= f.Keys && s != {}
    requires forall k :: k in s ==> 1 <= f[k]
    ensures |s| <= IntSetSum(s, f)
    decreases s
  {
    var x := Pick(s);
    assert |s - {x}| == |s| - 1;
    if s - {x} != {} {
      IntSetSumPositive(s - {x}, f);
    }
  }
}
