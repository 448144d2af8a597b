/** Sums of the values of a finite map, and how one update moves them. */
module FiniteSums {
  ghost function Sum<K>(m: map<K, nat>): nat {
    if m == map[] then 0
    else
      var k :| k in m;
      m[k] + Sum(m - {k})
  }

  lemma {:induction false} SumRemove<K>(m: map<K, nat>, k: K)
    requires k in m
    ensures Sum(m) == m[k] + Sum(m - {k})
    decreases |m|
  {
    var pick :| pick in m && Sum(m) == m[pick] + Sum(m - {pick});
    if pick != k {
      SumRemove(m - {pick}, k);
      SumRemove(m - {k}, pick);
      assert m - {pick} - {k} == m - {k} - {pick};
    }
  }

  lemma SumUpdate<K>(m: map<K, nat>, k: K, v: nat)
    ensures Sum(m[k := v]) == Sum(m) + v - (if k in m then m[k] else 0)
  {
    SumRemove(m[k := v], k);
    if k in m {
      SumRemove(m, k);
      assert m[k := v] - {k} == m - {k};
    } else {
      assert m[k := v] - {k} == m;
    }
  }

  lemma SumMember<K>(m: map<K, nat>, k: K)
    ensures (if k in m then m[k] else 0) <= Sum(m)
  {
  }

  /** Dropping keys lowers the sum by exactly what the dropped keys held. */
  lemma {:induction false} SumSplit<K>(m: map<K, nat>, keys: set<K>)
    ensures Sum(m) == Sum(m - keys) + Sum(map k | k in m && k in keys :: m[k])
    decreases |m|
  {
    var kept := m - keys;
    var dropped := map k | k in m && k in keys :: m[k];
    if m == map[] {
      assert kept == map[] && dropped == map[];
    } else {
      var k :| k in m;
      var rest := m - {k};
      SumSplit(rest, keys);
      SumRemove(m, k);
      if k in keys {
        SumRemove(dropped, k);
        assert rest - keys == kept;
        assert (map j | j in rest && j in keys :: rest[j]) == dropped - {k};
      } else {
        SumRemove(kept, k);
        assert rest - keys == kept - {k};
        assert (map j | j in rest && j in keys :: rest[j]) == dropped;
      }
    }
  }
}
