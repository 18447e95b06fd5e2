/** Stock result types. */
module Results {

  /** A step that may stop with an error; the caller rolls back on `Err`. */
  datatype Result<+T, +E> = Ok(value: T) | Err(error: E) {
    predicate IsFailure() { Err? }

    function PropagateFailure<U>(): Result<U, E>
      requires Err?
    {
      Err(error)
    }

    function Extract(): T
      requires Ok?
    {
      value
    }
  }

  datatype Option<+T> = None | Some(value: T)
}

/**
 * Sums over the rows of a table. A SQL `sum(...)` or `count(*)` over a table is
 * `Total` of a weight; the lemmas say how it moves when rows are inserted,
 * updated one by one, or updated in bulk.
 */
module Totals {

  ghost function Total<K, V>(m: map<K, V>, w: (K, V) -> int): int
    decreases |m|
  {
    if m == map[] then 0 else
      var k :| k in m;
      assert |m - {k}| < |m| by { Shrinks(m, k); }
      w(k, m[k]) + Total(m - {k}, w)
  }

  lemma Shrinks<K, V>(m: map<K, V>, k: K)
    requires k in m
    ensures |m - {k}| == |m| - 1
  {
    assert (m - {k}).Keys == m.Keys - {k};
    assert |(m - {k}).Keys| == |m.Keys| - 1;
  }

  /** What a row contributes; nothing when it is absent. */
  ghost function Share<K, V>(m: map<K, V>, w: (K, V) -> int, k: K): int {
    if k in m then w(k, m[k]) else 0
  }

  /** Any row may be taken out of the sum first. */
  lemma {:induction false} Without<K, V>(m: map<K, V>, w: (K, V) -> int, k: K)
    requires k in m
    ensures Total(m, w) == w(k, m[k]) + Total(m - {k}, w)
    decreases |m|
  {
    var j :| j in m && Total(m, w) == w(j, m[j]) + Total(m - {j}, w);
    if j != k {
      Shrinks(m, j);
      Shrinks(m, k);
      Without(m - {j}, w, k);
      Without(m - {k}, w, j);
      assert m - {j} - {k} == m - {k} - {j};
    }
  }

  /** The sum after an insert or an update of one row. */
  lemma {:induction false} Updated<K, V>(m: map<K, V>, w: (K, V) -> int, k: K, v: V)
    ensures Total(m[k := v], w) == Total(m, w) - Share(m, w, k) + w(k, v)
  {
    Without(m[k := v], w, k);
    assert m[k := v] - {k} == m - {k};
    if k in m {
      Without(m, w, k);
    } else {
      assert m - {k} == m;
    }
  }

  lemma {:induction false} Same<K, V>(m: map<K, V>, w: (K, V) -> int, x: (K, V) -> int)
    requires forall k :: k in m ==> w(k, m[k]) == x(k, m[k])
    ensures Total(m, w) == Total(m, x)
    decreases |m|
  {
    if m != map[] {
      var k :| k in m;
      Without(m, w, k);
      Without(m, x, k);
      Shrinks(m, k);
      Same(m - {k}, w, x);
    }
  }

  /** Two tables with the same keys and the same weights row by row, even of other rows. */
  lemma {:induction false} Reweighed<K, V>(m: map<K, V>, n: map<K, V>, w: (K, V) -> int, x: (K, V) -> int)
    requires m.Keys == n.Keys && forall k :: k in m ==> x(k, n[k]) == w(k, m[k])
    ensures Total(n, x) == Total(m, w)
    decreases |m|
  {
    if m == map[] {
      assert n == map[];
    } else {
      hide Total;
      var k :| k in m;
      Without(m, w, k);
      Without(n, x, k);
      Shrinks(m, k);
      Reweighed(m - {k}, n - {k}, w, x);
    }
  }

  lemma {:induction false} AllZero<K, V>(m: map<K, V>, w: (K, V) -> int)
    requires forall k :: k in m ==> w(k, m[k]) == 0
    ensures Total(m, w) == 0
    decreases |m|
  {
    if m != map[] {
      var k :| k in m;
      Without(m, w, k);
      Shrinks(m, k);
      AllZero(m - {k}, w);
    }
  }

  lemma {:induction false} NonNegative<K, V>(m: map<K, V>, w: (K, V) -> int)
    requires forall k :: k in m ==> w(k, m[k]) >= 0
    ensures Total(m, w) >= 0
    decreases |m|
  {
    if m != map[] {
      var k :| k in m;
      Without(m, w, k);
      Shrinks(m, k);
      NonNegative(m - {k}, w);
    }
  }

  lemma {:induction false} AtLeastShare<K, V>(m: map<K, V>, w: (K, V) -> int, k: K)
    requires k in m
    requires forall j :: j in m ==> w(j, m[j]) >= 0
    ensures Total(m, w) >= w(k, m[k])
  {
    Without(m, w, k);
    NonNegative(m - {k}, w);
  }

  lemma {:induction false} HeavierRows<K, V>(m: map<K, V>, n: map<K, V>, w: (K, V) -> int)
    requires m.Keys == n.Keys && forall k :: k in m ==> w(k, n[k]) >= w(k, m[k])
    ensures Total(n, w) >= Total(m, w)
    decreases |m|
  {
    if m == map[] {
      assert n == map[];
    } else {
      hide Total;
      var k :| k in m;
      Without(m, w, k);
      Without(n, w, k);
      Shrinks(m, k);
      HeavierRows(m - {k}, n - {k}, w);
    }
  }

  /** More rows, none of negative weight, sum to no less. */
  lemma {:induction false} MoreRows<K, V>(m: map<K, V>, n: map<K, V>, w: (K, V) -> int)
    requires forall k :: k in m ==> k in n && n[k] == m[k]
    requires forall k :: k in n && k !in m ==> w(k, n[k]) >= 0
    ensures Total(n, w) >= Total(m, w)
    decreases |m|
  {
    if m == map[] {
      NonNegative(n, w);
    } else {
      hide Total;
      var k :| k in m;
      Without(m, w, k);
      Without(n, w, k);
      Shrinks(m, k);
      MoreRows(m - {k}, n - {k}, w);
    }
  }

  /** The sum when every row of `s` gains `d` and every other row keeps its weight. */
  lemma {:induction false} Shifted<K, V>(m: map<K, V>, n: map<K, V>, w: (K, V) -> int, s: set<K>, d: int)
    requires m.Keys == n.Keys && s <= m.Keys
    requires forall k :: k in m ==> w(k, n[k]) == w(k, m[k]) + (if k in s then d else 0)
    ensures Total(n, w) == Total(m, w) + d * |s|
    decreases |m|
  {
    if m == map[] {
      assert s == {};
      assert n == map[];
    } else {
      hide Total;
      var k :| k in m;
      Without(m, w, k);
      Without(n, w, k);
      Shrinks(m, k);
      Shifted(m - {k}, n - {k}, w, s - {k}, d);
      OneMoreTime(d, s, k);
    }
  }

  lemma OneMoreTime<K>(d: int, s: set<K>, k: K)
    ensures d * |s| == d * |s - {k}| + if k in s then d else 0
  {
    if k in s {
      assert |s - {k}| == |s| - 1;
    } else {
      assert s - {k} == s;
    }
  }

  /** A sum of 0/1 weights counts the rows it selects. */
  lemma {:induction false} Counts<K, V>(m: map<K, V>, w: (K, V) -> int, s: set<K>)
    requires s <= m.Keys
    requires forall k :: k in m ==> w(k, m[k]) == if k in s then 1 else 0
    ensures Total(m, w) == |s|
    decreases |m|
  {
    if m == map[] {
      assert s == {};
    } else {
      var k :| k in m;
      Without(m, w, k);
      Shrinks(m, k);
      Counts(m - {k}, w, s - {k});
      if k in s {
        assert |s - {k}| == |s| - 1;
      } else {
        assert s - {k} == s;
      }
    }
  }
}
