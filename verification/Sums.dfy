/** Sums of the values of a finite map, as `sum(d.values())` and SQL's `SUM` take them. */
module Sums {
  ghost function Sum<K>(m: map<K, nat>): (total: nat)
    ensures m == map[] ==> total == 0
    decreases |m|
  {
    if m == map[] then 0
    else
      var k :| k in m;
      RemoveShrinks(m, k);
      m[k] + Sum(m - {k})
  }

  lemma RemoveShrinks<K, V>(m: map<K, V>, k: K)
    requires k in m
    ensures |m - {k}| == |m| - 1 && (m - {k}).Keys == m.Keys - {k}
  {
    assert (m - {k}).Keys == m.Keys - {k};
    assert |m.Keys| == |m| && |(m - {k}).Keys| == |m - {k}|;
  }

  /** The sum does not depend on the order in which the values are taken. */
  lemma {:induction false} SumRemove<K>(m: map<K, nat>, k: K)
    requires k in m
    ensures Sum(m) == m[k] + Sum(m - {k})
    decreases |m|
  {
    var first :| first in m && Sum(m) == m[first] + Sum(m - {first}) by {
      SumPicks(m);
    }
    if first != k {
      RemoveShrinks(m, first);
      RemoveShrinks(m, k);
      SumRemove(m - {first}, k);
      SumRemove(m - {k}, first);
      assert m - {first} - {k} == m - {k} - {first};
    }
  }

  lemma SumPicks<K>(m: map<K, nat>)
    requires m != map[]
    ensures exists first :: first in m && Sum(m) == m[first] + Sum(m - {first})
  {
  }

  lemma SumUpdate<K>(m: map<K, nat>, k: K, v: nat)
    ensures Sum(m[k := v]) == Sum(m) - (if k in m then m[k] else 0) + v
  {
    SumRemove(m[k := v], k);
    assert m[k := v] - {k} == m - {k};
    if k in m {
      SumRemove(m, k);
    } else {
      assert m - {k} == m;
    }
  }

  lemma {:induction false} SumZero<K>(m: map<K, nat>)
    requires forall k :: k in m ==> m[k] == 0
    ensures Sum(m) == 0
    decreases |m|
  {
    if m != map[] {
      var k :| k in m;
      RemoveShrinks(m, k);
      SumRemove(m, k);
      SumZero(m - {k});
    }
  }

  // Keys with nothing to add can be left out.
  lemma {:induction false} SumRestrict<K>(m: map<K, nat>, part: map<K, nat>)
    requires forall k :: k in part ==> k in m && m[k] == part[k]
    requires forall k :: k in m && k !in part ==> m[k] == 0
    ensures Sum(m) == Sum(part)
    decreases |m|
  {
    if k :| k in m && k !in part {
      RemoveShrinks(m, k);
      SumRemove(m, k);
      SumRestrict(m - {k}, part);
    } else {
      assert m == part;
    }
  }

  lemma {:induction false} SumPointwise<K>(a: map<K, nat>, b: map<K, nat>, c: map<K, nat>)
    requires a.Keys == b.Keys == c.Keys && forall k :: k in a ==> c[k] == a[k] + b[k]
    ensures Sum(c) == Sum(a) + Sum(b)
    decreases |a|
  {
    if k :| k in a {
      RemoveShrinks(a, k);
      SumRemove(a, k);
      SumRemove(b, k);
      SumRemove(c, k);
      SumPointwise(a - {k}, b - {k}, c - {k});
    } else {
      assert a == map[] && b == map[] && c == map[];
    }
  }

  method SumValues<K(==)>(m: map<K, nat>) returns (total: nat)
    ensures total == Sum(m)
  {
    total := 0;
    var rest := m;
    while rest != map[]
      invariant total + Sum(rest) == Sum(m)
      decreases |rest|
    {
      var k :| k in rest;
      SumRemove(rest, k);
      RemoveShrinks(rest, k);
      total := total + rest[k];
      rest := rest - {k};
    }
  }
}
