/** Sums over finite maps. */
module Sums {

  ghost function Total<K>(m: map<K, real>): real {
    if m == map[] then 0.0
    else
      var k :| k in m;
      m[k] + Total(m - {k})
  }

  /** The sum does not depend on the order in which keys are taken. */
  lemma {:induction false} TotalRemove<K>(m: map<K, real>, k: K)
    requires k in m
    ensures Total(m) == m[k] + Total(m - {k})
    decreases |m|
  {
    var j :| j in m && Total(m) == m[j] + Total(m - {j});
    if j != k {
      TotalRemove(m - {j}, k);
      TotalRemove(m - {k}, j);
      assert m - {j} - {k} == m - {k} - {j};
    }
  }

  lemma TotalPut<K>(m: map<K, real>, k: K, v: real)
    ensures Total(m[k := v]) == Total(m - {k}) + v
  {
    TotalRemove(m[k := v], k);
    assert m[k := v] - {k} == m - {k};
  }

  lemma TotalPutOver<K>(m: map<K, real>, k: K, v: real)
    ensures Total(m[k := v]) == Total(m) - (if k in m then m[k] else 0.0) + v
  {
    TotalPut(m, k, v);
    if k in m {
      TotalRemove(m, k);
    } else {
      assert m - {k} == m;
    }
  }

  function Times(c: real, n: nat): real {
    c * n as real
  }

  lemma {:induction false} TotalBounds<K>(m: map<K, real>, most: real)
    requires forall k | k in m :: 0.0 <= m[k] <= most
    ensures 0.0 <= Total(m) <= Times(most, |m|)
    decreases |m|
  {
    hide Times;
    if m != map[] {
      var k :| k in m;
      TotalRemove(m, k);
      TotalBounds(m - {k}, most);
      SizeRemove(m, k);
      OneMore(most, |m - {k}|);
    } else {
      OneMore(most, 0);
    }
  }

  lemma TimesAdds(c: real, n: nat, m: nat)
    ensures Times(c, n) + Times(c, m) == Times(c, n + m)
  {
    var x, y := n as real, m as real;
    assert (n + m) as real == x + y;
    assert c * (x + y) == c * x + c * y;
  }

  lemma TimesGrows(c: real, n: nat, m: nat)
    requires c >= 0.0 && n <= m
    ensures Times(c, n) <= Times(c, m)
  {
    assert c * (m as real - n as real) >= 0.0;
  }

  lemma SizeRemove<K, V>(m: map<K, V>, k: K)
    requires k in m
    ensures |m - {k}| == |m| - 1
  {
    assert (m - {k}).Keys == m.Keys - {k};
    assert |(m - {k}).Keys| == |m - {k}| && |m.Keys| == |m|;
  }

  lemma OneMore(most: real, n: nat)
    ensures Times(most, n + 1) == Times(most, n) + most
    ensures Times(most, 0) == 0.0
  {
    var x := n as real;
    assert (n + 1) as real == x + 1.0;
    assert most * (x + 1.0) == most * x + most;
  }

  lemma {:induction false} TotalIsPositive<K>(m: map<K, real>)
    requires forall k | k in m :: m[k] >= 0.0
    ensures Total(m) >= 0.0
    decreases |m|
  {
    if m != map[] {
      var k :| k in m;
      TotalRemove(m, k);
      TotalIsPositive(m - {k});
    }
  }

  /** One term is never more than the sum of terms that are not negative. */
  lemma TotalCovers<K>(m: map<K, real>, k: K)
    requires k in m && forall j | j in m :: m[j] >= 0.0
    ensures m[k] <= Total(m)
  {
    TotalRemove(m, k);
    TotalIsPositive(m - {k});
  }

  /** Splitting the keys splits the sum. */
  lemma {:induction false} TotalSplit<K>(m: map<K, real>, s: set<K>)
    ensures Total(m) == Total(map k | k in m && k in s :: m[k]) + Total(m - s)
    decreases |m|
  {
    var inside := map k | k in m && k in s :: m[k];
    if m != map[] {
      var k :| k in m;
      TotalRemove(m, k);
      TotalSplit(m - {k}, s);
      var inside' := map j | j in m - {k} && j in s :: (m - {k})[j];
      if k in s {
        TotalRemove(inside, k);
        assert inside - {k} == inside';
        assert m - {k} - s == m - s;
      } else {
        TotalRemove(m - s, k);
        assert inside == inside';
        assert m - s - {k} == m - {k} - s;
      }
    } else {
      assert m - s == map[];
      assert inside == map[];
    }
  }
}
