/** Totals over the values of a finite map. A protocol state keeps one program
    counter per thread; permits held, work left and events owed are all totals
    of a function of the program counter. */
module Counting {

  /** One distinct unit for each of the `f(m[k])` things that key `k` holds. */
  ghost function Units<K, V>(f: V -> nat, m: map<K, V>): set<(K, nat)> {
    set k, i: nat | k in m && i < f(m[k]) :: (k, i)
  }

  ghost function Total<K, V>(f: V -> nat, m: map<K, V>): nat {
    |Units(f, m)|
  }

  // What a key that may be absent adds to a total.
  function Of<K(==), V>(f: V -> nat, m: map<K, V>, k: K): nat {
    if k in m then f(m[k]) else 0
  }

  ghost function Column<K>(k: K, n: nat): set<(K, nat)> {
    set i: nat | i < n :: (k, i)
  }

  lemma {:induction false} ColumnSize<K>(k: K, n: nat)
    ensures |Column(k, n)| == n
  {
    if n == 0 {
      assert Column(k, 0) == {};
    } else {
      ColumnSize(k, n - 1);
      assert Column(k, n) == Column(k, n - 1) + {(k, n - 1)};
    }
  }

  // One key changes and another is new.
  lemma TotalSpawn<K, V>(f: V -> nat, m: map<K, V>, k: K, v: V, j: K, w: V)
    requires k in m && j !in m
    ensures Total(f, m[k := v][j := w]) + f(m[k]) == Total(f, m) + f(v) + f(w)
  {
    TotalSet(f, m, k, v);
    TotalSet(f, m[k := v], j, w);
  }

  /** Writing one key changes a total by exactly what that key gains. */
  lemma TotalSet<K, V>(f: V -> nat, m: map<K, V>, k: K, v: V)
    ensures Total(f, m[k := v]) + Of(f, m, k) == Total(f, m) + f(v)
  {
    var rest := set u | u in Units(f, m) && u.0 != k;
    var was := Of(f, m, k);
    assert Units(f, m) == rest + Column(k, was);
    assert Units(f, m[k := v]) == rest + Column(k, f(v)) by {
      forall j, i: nat ensures (j, i) in Units(f, m[k := v]) <==> (j, i) in rest + Column(k, f(v)) {
      }
    }
    assert rest !! Column(k, was) && rest !! Column(k, f(v));
    ColumnSize(k, was);
    ColumnSize(k, f(v));
  }

  lemma TotalEmpty<K, V>(f: V -> nat)
    ensures Total<K, V>(f, map[]) == 0
  {
    assert Units<K, V>(f, map[]) == {};
  }

  lemma TotalOne<K, V>(f: V -> nat, m: map<K, V>, k: K)
    requires k in m
    ensures f(m[k]) <= Total(f, m)
  {
    TotalSet(f, m, k, m[k]);
    ColumnSize(k, f(m[k]));
    SubsetSize(Column(k, f(m[k])), Units(f, m));
  }

  lemma TotalTwo<K, V>(f: V -> nat, m: map<K, V>, j: K, k: K)
    requires j in m && k in m && j != k
    ensures f(m[j]) + f(m[k]) <= Total(f, m)
  {
    ColumnSize(j, f(m[j]));
    ColumnSize(k, f(m[k]));
    assert Column(j, f(m[j])) !! Column(k, f(m[k]));
    SubsetSize(Column(j, f(m[j])) + Column(k, f(m[k])), Units(f, m));
  }

  lemma TotalAtMost<K, V>(f: V -> nat, g: V -> nat, m: map<K, V>)
    requires forall k :: k in m ==> f(m[k]) <= g(m[k])
    ensures Total(f, m) <= Total(g, m)
  {
    SubsetSize(Units(f, m), Units(g, m));
  }

  /** What one key does not hold, another must. */
  lemma TotalElsewhere<K, V>(f: V -> nat, m: map<K, V>, k: K) returns (j: K)
    requires Total(f, m) > Of(f, m, k)
    ensures j in m && j != k && f(m[j]) > 0
  {
    var was := Of(f, m, k);
    ColumnSize(k, was);
    if Units(f, m) <= Column(k, was) {
      SubsetSize(Units(f, m), Column(k, was));
      assert false;
    }
    var u :| u in Units(f, m) && u !in Column(k, was);
    j := u.0;
  }

  lemma TotalSome<K, V>(f: V -> nat, m: map<K, V>) returns (k: K)
    requires Total(f, m) > 0
    ensures k in m && f(m[k]) > 0
  {
    var u :| u in Units(f, m);
    k := u.0;
  }

  /** Disjoint shares of one total. */
  lemma TotalSplit<K, V>(f: V -> nat, g: V -> nat, h: V -> nat, m: map<K, V>)
    requires forall k :: k in m ==> h(m[k]) == f(m[k]) + g(m[k])
    requires forall k :: k in m ==> f(m[k]) == 0 || g(m[k]) == 0
    ensures Total(h, m) == Total(f, m) + Total(g, m)
  {
    assert Units(h, m) == Units(f, m) + Units(g, m);
    assert Units(f, m) !! Units(g, m);
  }

  lemma SubsetSize<T>(a: set<T>, b: set<T>)
    requires a <= b
    ensures |a| <= |b|
  {
    assert b == a + (b - a);
  }

  /** A finite set of identifiers leaves one unused. */
  lemma {:induction false} Unused(ids: set<nat>) returns (n: nat)
    ensures n !in ids
    ensures forall i :: i in ids ==> i < n
    decreases |ids|
  {
    n := 0;
    if ids != {} {
      var i :| i in ids;
      var below := Unused(ids - {i});
      n := if below <= i then i + 1 else below;
      assert forall j :: j in ids ==> j == i || j in ids - {i};
    }
  }
}
