/** Sums over finite maps, as the loops over Go maps compute them in whatever order. */
module Sums {

  ghost function Total(m: map<string, int>): int {
    if m == map[] then 0
    else
      var k :| k in m;
      m[k] + Total(m - {k})
  }

  /** The order of summation does not matter. */
  lemma {:induction false} TotalRemove(m: map<string, int>, k: string)
    requires k in m
    ensures Total(m) == m[k] + Total(m - {k})
    decreases |m|
  {
    var j :| j in m && Total(m) == m[j] + Total(m - {j});
    if j != k {
      TotalRemove(m - {j}, k);
      TotalRemove(m - {k}, j);
      assert m - {j} - {k} == m - {k} - {j};
    }
  }

  lemma TotalPut(m: map<string, int>, k: string, v: int)
    ensures Total(m[k := v]) == Total(m) - (if k in m then m[k] else 0) + v
  {
    var n := m[k := v];
    TotalRemove(n, k);
    if k in m {
      TotalRemove(m, k);
      assert n - {k} == m - {k};
    } else {
      assert n - {k} == m;
    }
  }

  lemma {:induction false} TotalAtLeast(m: map<string, int>, k: string)
    requires k in m && forall j <- m :: m[j] >= 0
    ensures Total(m) >= m[k]
  {
    TotalRemove(m, k);
    TotalNonNegative(m - {k});
  }

  lemma {:induction false} TotalNonNegative(m: map<string, int>)
    requires forall j <- m :: m[j] >= 0
    ensures Total(m) >= 0
    decreases |m|
  {
    if m != map[] {
      var k :| k in m;
      TotalRemove(m, k);
      TotalNonNegative(m - {k});
    }
  }

  lemma {:induction false} TotalZero(m: map<string, int>)
    requires forall j <- m :: m[j] == 0
    ensures Total(m) == 0
    decreases |m|
  {
    if m != map[] {
      var k :| k in m;
      TotalRemove(m, k);
      TotalZero(m - {k});
    }
  }

  /** Summing a map by ranging over it. */
  method SumValues(m: map<string, int>) returns (total: int)
    ensures total == Total(m)
  {
    total := 0;
    var todo := m.Keys;
    assert (map k | k in todo :: m[k]) == m;
    while todo != {}
      invariant todo <= m.Keys
      invariant total + Total(map k | k in todo :: m[k]) == Total(m)
    {
      var k :| k in todo;
      var rest := map j | j in todo :: m[j];
      TotalRemove(rest, k);
      assert rest - {k} == map j | j in todo - {k} :: m[j];
      total := total + m[k];
      todo := todo - {k};
    }
  }
}
