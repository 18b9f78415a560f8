/** The sum of the values of a finite map, and how one change moves it. */
module Sums {
  ghost function Total<K(!new)>(m: map<K, int>): int {
    if m == map[] then 0
    else
      var k :| k in m;
      m[k] + Total(m - {k})
  }

  lemma {:induction false} TotalSplit<K(!new)>(m: map<K, int>, k: K)
    requires k in m
    ensures Total(m) == m[k] + Total(m - {k})
    decreases |m|
  {
    var c :| c in m && Total(m) == m[c] + Total(m - {c});
    if c != k {
      TotalSplit(m - {c}, k);
      TotalSplit(m - {k}, c);
      assert m - {c} - {k} == m - {k} - {c};
    }
  }

  lemma TotalUpdate<K(!new)>(m: map<K, int>, k: K, v: int)
    ensures Total(m[k := v]) == Total(m) + v - if k in m then m[k] else 0
  {
    TotalSplit(m[k := v], k);
    if k in m {
      TotalSplit(m, k);
      assert m[k := v] - {k} == m - {k};
    } else {
      assert m[k := v] - {k} == m;
    }
  }

  /** Values between 0 and a bound, and 0 outside `support`. */
  lemma {:induction false} TotalWithin<K(!new)>(m: map<K, int>, support: set<K>, bound: int)
    requires support <= m.Keys && forall k | k in m :: 0 <= m[k] <= if k in support then bound else 0
    ensures 0 <= Total(m) <= |support| * bound
    decreases |m|
  {
    if m != map[] {
      var k :| k in m && Total(m) == m[k] + Total(m - {k});
      TotalWithin(m - {k}, support - {k}, bound);
      if k in support {
        Distribute(|support - {k}|, bound);
      } else {
        assert support - {k} == support;
      }
    }
  }

  lemma TotalBounds<K(!new)>(m: map<K, int>, bound: int)
    requires forall k | k in m :: 0 <= m[k] <= bound
    ensures 0 <= Total(m) <= |m| * bound
  {
    TotalWithin(m, m.Keys, bound);
    assert |m.Keys| == |m|;
  }

  lemma Distribute(n: int, bound: int)
    ensures (n + 1) * bound == n * bound + bound
  {
  }

  /** One value on `support`, 0 elsewhere. */
  lemma {:induction false} TotalConstant<K(!new)>(m: map<K, int>, support: set<K>, v: int)
    requires support <= m.Keys && forall k | k in m :: m[k] == if k in support then v else 0
    ensures Total(m) == |support| * v
    decreases |m|
  {
    if m != map[] {
      var k :| k in m && Total(m) == m[k] + Total(m - {k});
      TotalConstant(m - {k}, support - {k}, v);
      if k in support {
        Distribute(|support - {k}|, v);
      } else {
        assert support - {k} == support;
      }
    }
  }

  lemma {:induction false} TotalOfSum<K(!new)>(m: map<K, int>, a: map<K, int>, b: map<K, int>)
    requires a.Keys == m.Keys && b.Keys == m.Keys && forall k | k in m :: m[k] == a[k] + b[k]
    ensures Total(m) == Total(a) + Total(b)
    decreases |m|
  {
    if m != map[] {
      var k :| k in m && Total(m) == m[k] + Total(m - {k});
      TotalSplit(a, k);
      TotalSplit(b, k);
      TotalOfSum(m - {k}, a - {k}, b - {k});
    }
  }

  /** Only key i has changed, and possibly key n has come. */
  lemma TotalMoves<K(!new)>(a: map<K, int>, b: map<K, int>, i: K, n: K)
    requires i in a && i in b && n !in a && (b.Keys == a.Keys || b.Keys == a.Keys + {n})
    requires forall j | j in a && j != i :: b[j] == a[j]
    ensures Total(b) == Total(a) - a[i] + b[i] + if n in b then b[n] else 0
  {
    var part := a[i := b[i]];
    TotalUpdate(a, i, b[i]);
    if n in b {
      TotalUpdate(part, n, b[n]);
      assert b == part[n := b[n]];
    } else {
      assert b == part;
    }
  }

  /** Keys with value 0 add nothing. */
  lemma {:induction false} TotalExtended<K(!new)>(m: map<K, int>, more: map<K, int>)
    requires forall k | k in m :: k in more && more[k] == m[k]
    requires forall k | k in more && k !in m :: more[k] == 0
    ensures Total(more) == Total(m)
    decreases |more|
  {
    if more.Keys <= m.Keys {
      assert more == m;
    } else {
      var k :| k in more && k !in m;
      TotalSplit(more, k);
      TotalExtended(m, more - {k});
    }
  }
}
