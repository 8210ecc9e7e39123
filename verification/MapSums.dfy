/** Finite sums over the values of a map, and how they move when one entry does. */
module MapSums {

  ghost function Sum<K>(m: map<K, int>): int {
    if m == map[] then 0
    else
      var k :| k in m;
      m[k] + Sum(m - {k})
  }

  function At<K(==)>(m: map<K, int>, k: K): int {
    if k in m then m[k] else 0
  }

  /** The sum does not depend on which entry is taken first. */
  lemma {:induction false} SumSplit<K>(m: map<K, int>, k: K)
    requires k in m
    ensures Sum(m) == m[k] + Sum(m - {k})
    decreases |m|
  {
    var first :| first in m && Sum(m) == m[first] + Sum(m - {first});
    if first != k {
      SumSplit(m - {first}, k);
      SumSplit(m - {k}, first);
      assert (m - {first}) - {k} == (m - {k}) - {first};
    }
  }

  lemma SumRemove<K>(m: map<K, int>, k: K)
    ensures Sum(m - {k}) == Sum(m) - At(m, k)
  {
    if k in m {
      SumSplit(m, k);
    } else {
      assert m - {k} == m;
    }
  }

  lemma SumPut<K>(m: map<K, int>, k: K, v: int)
    ensures Sum(m[k := v]) == Sum(m) - At(m, k) + v
  {
    SumSplit(m[k := v], k);
    SumRemove(m, k);
    assert m[k := v] - {k} == m - {k};
  }

  lemma {:induction false} SumNonNegative<K>(m: map<K, int>)
    requires forall k :: k in m ==> 0 <= m[k]
    ensures 0 <= Sum(m)
    decreases |m|
  {
    if m != map[] {
      var k :| k in m;
      SumSplit(m, k);
      SumNonNegative(m - {k});
    }
  }

  /** No entry of a map of non-negative values exceeds the sum. */
  lemma SumCovers<K>(m: map<K, int>, k: K)
    requires forall j :: j in m ==> 0 <= m[j]
    ensures 0 <= At(m, k) <= Sum(m)
  {
    if k in m {
      SumSplit(m, k);
      SumNonNegative(m - {k});
    } else {
      SumNonNegative(m);
    }
  }

  lemma {:induction false} SumAdd<K>(m: map<K, int>, a: map<K, int>, b: map<K, int>)
    requires m.Keys == a.Keys == b.Keys
    requires forall k :: k in m ==> m[k] == a[k] + b[k]
    ensures Sum(m) == Sum(a) + Sum(b)
    decreases |m|
  {
    if m == map[] {
      assert a == map[] && b == map[];
    } else {
      var k :| k in m;
      SumSplit(m, k);
      SumSplit(a, k);
      SumSplit(b, k);
      SumAdd(m - {k}, a - {k}, b - {k});
    }
  }

  ghost function Scaled<K>(b: map<K, int>, c: int): map<K, int> {
    map k | k in b :: c * b[k]
  }

  lemma ScaledRest<K>(b: map<K, int>, c: int, k: K)
    requires k in b
    ensures k in Scaled(b, c) && Scaled(b, c)[k] == c * b[k] && Scaled(b, c) - {k} == Scaled(b - {k}, c)
  {
  }

  lemma {:induction false} SumScale<K>(b: map<K, int>, c: int)
    ensures Sum(Scaled(b, c)) == c * Sum(b)
    decreases |b|
  {
    if b == map[] {
      assert Scaled(b, c) == map[];
    } else {
      var k :| k in b;
      ScaledRest(b, c, k);
      SumSplit(Scaled(b, c), k);
      SumSplit(b, k);
      SumScale(b - {k}, c);
      Distribute(c, b[k], Sum(b - {k}));
    }
  }

  lemma Distribute(c: int, x: int, y: int)
    ensures c * (x + y) == c * x + c * y
  {
  }

  lemma {:induction false} SumMonotone<K>(m: map<K, int>, n: map<K, int>)
    requires m.Keys == n.Keys
    requires forall k :: k in m ==> m[k] <= n[k]
    ensures Sum(m) <= Sum(n)
    decreases |m|
  {
    if m == map[] {
      assert n == map[];
    } else {
      var k :| k in m;
      SumSplit(m, k);
      SumSplit(n, k);
      SumMonotone(m - {k}, n - {k});
    }
  }

  /** A smaller list of payments adds up to no more. */
  lemma {:induction false} SumUnder<K>(m: map<K, int>, n: map<K, int>)
    requires (forall k :: k in m ==> m[k] <= At(n, k)) && (forall k :: k in n ==> 0 <= n[k])
    ensures Sum(m) <= Sum(n)
    decreases |m|
  {
    if m == map[] {
      SumNonNegative(n);
    } else {
      var k :| k in m;
      SumSplit(m, k);
      SumRemove(n, k);
      SumUnder(m - {k}, n - {k});
    }
  }

  lemma {:induction false} SumConstant<K>(m: map<K, int>, c: int)
    requires forall k :: k in m ==> m[k] == c
    ensures Sum(m) == c * |m|
    decreases |m|
  {
    if m != map[] {
      var k :| k in m;
      SumSplit(m, k);
      SumConstant(m - {k}, c);
      assert |m| == |m - {k}| + 1;
      assert c * |m| == c * |m - {k}| + c;
    }
  }
}
