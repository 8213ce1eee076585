/** Sums over the rows of a table, as computed by the SQL aggregates. */
module MapSums {

  /** `SUM(f(row))` over all rows. */
  ghost function Sum<K(!new), V(!new)>(m: map<K, V>, f: V -> int): int
    decreases m.Keys
  {
    if m == map[] then 0
    else
      var k :| k in m;
      assert (m - {k}).Keys == m.Keys - {k};
      f(m[k]) + Sum(m - {k}, f)
  }

  /** The sum does not depend on the order in which rows are visited. */
  lemma {:induction false} SumTake<K(!new), V(!new)>(m: map<K, V>, f: V -> int, k: K)
    requires k in m
    ensures Sum(m, f) == f(m[k]) + Sum(m - {k}, f)
    decreases m.Keys
  {
    var first :| first in m && Sum(m, f) == f(m[first]) + Sum(m - {first}, f);
    if first != k {
      assert (m - {k}).Keys == m.Keys - {k} && (m - {first}).Keys == m.Keys - {first};
      SumTake(m - {first}, f, k);
      SumTake(m - {k}, f, first);
      assert m - {first} - {k} == m - {k} - {first};
    }
  }

  lemma SumPut<K(!new), V(!new)>(m: map<K, V>, f: V -> int, k: K, v: V)
    ensures Sum(m[k := v], f) == Sum(m, f) + f(v) - (if k in m then f(m[k]) else 0)
  {
    SumTake(m[k := v], f, k);
    assert m[k := v] - {k} == m - {k};
    if k in m {
      SumTake(m, f, k);
    } else {
      assert m - {k} == m;
    }
  }

  lemma {:induction false} SumSame<K(!new), V(!new)>(m: map<K, V>, n: map<K, V>, f: V -> int)
    requires m.Keys == n.Keys
    requires forall k | k in m :: f(m[k]) == f(n[k])
    ensures Sum(m, f) == Sum(n, f)
    decreases m.Keys
  {
    if m == map[] {
      assert n.Keys == {};
      assert n == map[];
    } else {
      var k :| k in m && Sum(m, f) == f(m[k]) + Sum(m - {k}, f);
      assert k in n.Keys;
      SumTake(n, f, k);
      assert (m - {k}).Keys == m.Keys - {k} == (n - {k}).Keys;
      forall x | x in m - {k} ensures f((m - {k})[x]) == f((n - {k})[x]) {
        assert x in m;
      }
      SumSame(m - {k}, n - {k}, f);
    }
  }

  lemma {:induction false} SumIsNonNegative<K(!new), V(!new)>(m: map<K, V>, f: V -> int)
    requires forall k | k in m :: f(m[k]) >= 0
    ensures Sum(m, f) >= 0
    decreases m.Keys
  {
    if m != map[] {
      var k :| k in m && Sum(m, f) == f(m[k]) + Sum(m - {k}, f);
      assert (m - {k}).Keys == m.Keys - {k};
      forall x | x in m - {k} ensures f((m - {k})[x]) >= 0 {
        assert x in m;
      }
      SumIsNonNegative(m - {k}, f);
    }
  }

  /** The rows with the given keys. */
  function Restrict<K, V>(m: map<K, V>, keys: set<K>): map<K, V> {
    map k | k in m && k in keys :: m[k]
  }

  /** Rows that contribute nothing may be left out of a sum. */
  lemma {:induction false} SumWithout<K(!new), V(!new)>(m: map<K, V>, f: V -> int, keys: set<K>)
    requires forall k | k in m && k !in keys :: f(m[k]) == 0
    ensures Sum(m, f) == Sum(Restrict(m, keys), f)
    decreases m.Keys
  {
    if k :| k in m && k !in keys {
      SumTake(m, f, k);
      assert (m - {k}).Keys == m.Keys - {k};
      forall x | x in m - {k} && x !in keys ensures f((m - {k})[x]) == 0 {
        assert x in m;
      }
      SumWithout(m - {k}, f, keys);
      assert Restrict(m - {k}, keys) == Restrict(m, keys);
    } else {
      assert Restrict(m, keys) == m;
    }
  }

  /** A sum splits into the rows with the given keys and the others. */
  lemma {:induction false} SumSplit<K(!new), V(!new)>(m: map<K, V>, f: V -> int, keys: set<K>)
    ensures Sum(m, f) == Sum(Restrict(m, keys), f) + Sum(m - keys, f)
    decreases m.Keys
  {
    if k :| k in m && k !in keys {
      assert (m - {k}).Keys == m.Keys - {k};
      SumTake(m, f, k);
      SumSplit(m - {k}, f, keys);
      SumTake(m - keys, f, k);
      assert Restrict(m - {k}, keys) == Restrict(m, keys) && m - {k} - keys == m - keys - {k};
    } else {
      assert Restrict(m, keys) == m && m - keys == map[];
    }
  }

  /** Rows that contribute nothing negative sum to zero exactly when none contributes. */
  lemma SumIsZero<K(!new), V(!new)>(m: map<K, V>, f: V -> int)
    requires forall k | k in m :: f(m[k]) >= 0
    ensures Sum(m, f) == 0 <==> forall k | k in m :: f(m[k]) == 0
  {
    if k :| k in m && f(m[k]) > 0 {
      SumTake(m, f, k);
      SumIsNonNegative(m - {k}, f);
    } else {
      SumWithout(m, f, {});
      assert Restrict(m, {}) == map[];
    }
  }

  /** Two ways to weigh rows that agree on every row give the same sum. */
  lemma {:induction false} SumAgrees<K(!new), V(!new)>(m: map<K, V>, f: V -> int, g: V -> int)
    requires forall k | k in m :: f(m[k]) == g(m[k])
    ensures Sum(m, f) == Sum(m, g)
    decreases m.Keys
  {
    if m != map[] {
      var k :| k in m && Sum(m, f) == f(m[k]) + Sum(m - {k}, f);
      assert (m - {k}).Keys == m.Keys - {k};
      SumTake(m, g, k);
      SumAgrees(m - {k}, f, g);
    }
  }
}
