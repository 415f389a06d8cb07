/** Totals of the values of a finite map. */
module Sums {

  ghost function Sum<K(!new)>(m: map<K, int>): int
    decreases |m|
  {
    if m == map[] then 0 else
      var k :| k in m;
      m[k] + Sum(m - {k})
  }

  lemma {:induction false} SumSplit<K(!new)>(m: map<K, int>, k: K)
    requires k in m
    ensures Sum(m) == m[k] + Sum(m - {k})
    decreases |m|
  {
    var c :| c in m && Sum(m) == m[c] + Sum(m - {c});
    if c != k {
      SumSplit(m - {c}, k);
      SumSplit(m - {k}, c);
      assert m - {c} - {k} == m - {k} - {c};
    }
  }

  lemma {:induction false} SumUpdate<K(!new)>(m: map<K, int>, k: K, v: int)
    ensures Sum(m[k := v]) == Sum(m) + v - (if k in m then m[k] else 0)
  {
    SumSplit(m[k := v], k);
    assert m[k := v] - {k} == m - {k};
    if k in m {
      SumSplit(m, k);
    } else {
      assert m - {k} == m;
    }
  }

  lemma {:induction false} SumZero<K(!new)>(m: map<K, int>)
    requires forall k :: k in m ==> m[k] == 0
    ensures Sum(m) == 0
    decreases |m|
  {
    if m != map[] {
      var k :| k in m;
      SumSplit(m, k);
      SumZero(m - {k});
    }
  }

  lemma AddScaled(p: int, x: int, y: int, q: int, u: int, v: int)
    requires p * x <= q * u && p * y <= q * v
    ensures p * (x + y) <= q * (u + v)
  {
    assert p * (x + y) == p * x + p * y;
    assert q * (u + v) == q * u + q * v;
  }

  /** Pointwise `p * a[k] <= q * b[k]` adds up. */
  lemma {:induction false} SumScaled<K(!new)>(a: map<K, int>, b: map<K, int>, p: int, q: int)
    requires a.Keys == b.Keys
    requires forall k :: k in a ==> p * a[k] <= q * b[k]
    ensures p * Sum(a) <= q * Sum(b)
    decreases |a|
  {
    if a == map[] {
      assert b == map[];
    } else {
      var k :| k in a;
      SumSplit(a, k);
      SumSplit(b, k);
      var a', b' := a - {k}, b - {k};
      SumScaled(a', b', p, q);
      AddScaled(p, a[k], Sum(a'), q, b[k], Sum(b'));
    }
  }

  lemma SumMonotone<K(!new)>(a: map<K, int>, b: map<K, int>)
    requires a.Keys == b.Keys
    requires forall k :: k in a ==> a[k] <= b[k]
    ensures Sum(a) <= Sum(b)
  {
    SumScaled(a, b, 1, 1);
  }

  lemma {:induction false} SumEqualForcesEqual<K(!new)>(a: map<K, int>, b: map<K, int>)
    requires a.Keys == b.Keys
    requires forall k :: k in a ==> a[k] <= b[k]
    requires Sum(a) == Sum(b)
    ensures a == b
  {
    forall k | k in a ensures a[k] == b[k] {
      SumSplit(a, k);
      SumSplit(b, k);
      SumMonotone(a - {k}, b - {k});
    }
  }

  lemma {:induction false} SumNonNegative<K(!new)>(m: map<K, int>)
    requires forall k :: k in m ==> m[k] >= 0
    ensures Sum(m) >= 0
    decreases |m|
  {
    if m != map[] {
      var k :| k in m;
      SumSplit(m, k);
      SumNonNegative(m - {k});
    }
  }

  ghost function Shifted<K(!new)>(m: map<K, int>, c: int): map<K, int> {
    map k | k in m :: m[k] + c
  }

  lemma ShiftedWithout<K(!new)>(m: map<K, int>, c: int, k: K)
    requires k in m
    ensures Shifted(m, c) - {k} == Shifted(m - {k}, c) && |m - {k}| == |m| - 1
  {
    assert (m - {k}).Keys == m.Keys - {k};
  }

  /** Adding `c` to every value adds it once for each key. */
  lemma {:induction false} SumShifted<K(!new)>(m: map<K, int>, c: int)
    ensures Sum(Shifted(m, c)) == Sum(m) + c * |m|
    decreases |m|
  {
    if m == map[] {
      assert Shifted(m, c) == map[];
    } else {
      var k :| k in m;
      SumSplit(m, k);
      SumSplit(Shifted(m, c), k);
      ShiftedWithout(m, c, k);
      SumShifted(m - {k}, c);
      OneMore(c, |m|);
    }
  }

  lemma OneMore(c: int, n: int)
    ensures c * n == c * (n - 1) + c
  {
  }

  lemma {:induction false} SumAtLeastSize<K(!new)>(m: map<K, int>)
    requires forall k :: k in m ==> m[k] >= 1
    ensures Sum(m) >= |m|
    decreases |m|
  {
    if m != map[] {
      var k :| k in m;
      SumSplit(m, k);
      assert (m - {k}).Keys == m.Keys - {k};
      SumAtLeastSize(m - {k});
    }
  }
}
