/** Sums over finite maps: the reference against which incrementally kept totals are compared. */
module Sums {

  function At<K>(m: map<K, int>, k: K): int {
    if k in m then m[k] else 0
  }

  ghost function Sum<K>(m: map<K, int>): int
    decreases m.Keys
  {
    if m == map[] then 0
    else
      var k :| k in m;
      m[k] + Sum(m - {k})
  }

  /** Any key may be taken out first. */
  lemma {:induction false} SumTake<K>(m: map<K, int>, k: K)
    requires k in m
    ensures Sum(m) == m[k] + Sum(m - {k})
    decreases m.Keys
  {
    var x :| x in m && Sum(m) == m[x] + Sum(m - {x});
    if x != k {
      SumTake(m - {x}, k);
      SumTake(m - {k}, x);
      assert m - {x} - {k} == m - {k} - {x};
    }
  }

  lemma SumPut<K>(m: map<K, int>, k: K, v: int)
    ensures Sum(m[k := v]) == Sum(m) - At(m, k) + v
  {
    SumTake(m[k := v], k);
    if k in m {
      SumTake(m, k);
      assert m[k := v] - {k} == m - {k};
    } else {
      assert m[k := v] - {k} == m;
    }
  }

  lemma {:induction false} SumMonotone<K>(a: map<K, int>, b: map<K, int>)
    requires a.Keys == b.Keys
    requires forall k :: k in a ==> a[k] <= b[k]
    ensures Sum(a) <= Sum(b)
    decreases a.Keys
  {
    if a != map[] {
      var k :| k in a;
      SumTake(a, k);
      SumTake(b, k);
      SumMonotone(a - {k}, b - {k});
    }
  }

  lemma {:induction false} SumNonNegative<K>(a: map<K, int>)
    requires forall k :: k in a ==> 0 <= a[k]
    ensures 0 <= Sum(a)
    decreases a.Keys
  {
    if a != map[] {
      var k :| k in a;
      SumTake(a, k);
      SumNonNegative(a - {k});
    }
  }

  lemma {:induction false} SumZero<K>(a: map<K, int>)
    requires forall k :: k in a ==> a[k] == 0
    ensures Sum(a) == 0
    decreases a.Keys
  {
    if a != map[] {
      var k :| k in a;
      SumTake(a, k);
      SumZero(a - {k});
    }
  }

  /** A sub-map with everything left out non-negative sums to no more. */
  lemma {:induction false} SumSubset<K>(a: map<K, int>, b: map<K, int>)
    requires a.Keys <= b.Keys
    requires forall k :: k in a ==> a[k] == b[k]
    requires forall k :: k in b && k !in a ==> 0 <= b[k]
    ensures Sum(a) <= Sum(b)
    decreases a.Keys
  {
    if a == map[] {
      SumNonNegative(b);
    } else {
      var k :| k in a;
      SumTake(a, k);
      SumTake(b, k);
      SumSubset(a - {k}, b - {k});
    }
  }

  lemma {:induction false} SumPlus<K>(a: map<K, int>, b: map<K, int>, c: map<K, int>)
    requires a.Keys == b.Keys == c.Keys
    requires forall k :: k in c ==> c[k] == a[k] + b[k]
    ensures Sum(c) == Sum(a) + Sum(b)
    decreases a.Keys
  {
    if c != map[] {
      var k :| k in c;
      SumTake(a, k);
      SumTake(b, k);
      SumTake(c, k);
      SumPlus(a - {k}, b - {k}, c - {k});
    }
  }
}
