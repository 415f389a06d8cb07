/** Quota bounds of the two proportional priorities: V2 serves by `served / size`
    (`lead == 0`), V1 by `(served + 1) / size` (`lead == 1`). */
module Apportionment {
  import opened Sums
  import opened FairQueue

  function Share<K(!new)>(sizes: Strata<K>, lead: nat): (K, nat) -> real {
    (k: K, served: nat) => if k in sizes then (served + lead) as real / sizes[k] as real else 0.0
  }

  lemma CompareRatios(a: nat, n: Size, b: nat, m: Size)
    ensures a as real / n as real <= b as real / m as real <==> a * m <= b * n
  {
    var x, y := n as real, m as real;
    var p, q := a as real / x, b as real / y;
    assert p * x == a as real && q * y == b as real;
    assert p <= q <==> p * (x * y) <= q * (x * y);
    assert p * (x * y) == (p * x) * y == (a * m) as real;
    assert q * (x * y) == (q * y) * x == (b * n) as real;
  }

  lemma CompareShares<K(!new)>(sizes: Strata<K>, lead: nat, a: K, s: nat, b: K, t: nat)
    requires a in sizes && b in sizes
    ensures Share(sizes, lead)(a, s) <= Share(sizes, lead)(b, t)
      <==> (s + lead) * sizes[b] <= (t + lead) * sizes[a]
  {
    CompareRatios(s + lead, sizes[a], t + lead, sizes[b]);
  }

  /** How far stratum `i` can be ahead of stratum `j`. */
  predicate NotAhead(lead: nat, servedI: nat, sizeI: nat, servedJ: nat, sizeJ: nat) {
    servedI > 0 ==> (servedI - 1 + lead) * sizeJ <= (servedJ + lead) * sizeI
  }

  lemma PickNotAhead<K(!new)>(sizes: Strata<K>, lead: nat, rank: K -> nat, served: multiset<K>, i: K, j: K)
    requires lead <= 1 && j in sizes && j != i && Within(sizes, served)
    requires Next(sizes, Share(sizes, lead), rank, served, i)
    ensures NotAhead(lead, served[i] + 1, sizes[i], served[j], sizes[j])
  {
    if Waiting(sizes, served, j) {
      assert Before(Share(sizes, lead), rank, served, i, j);
      CompareShares(sizes, lead, i, served[i], j, served[j]);
    } else {
      assert served[j] == sizes[j] by {
        if served[j] > 0 { assert j in served; }
      }
      Products(served[i] + lead, sizes[i], sizes[j], lead);
    }
  }

  lemma Products(a: nat, n: nat, m: nat, lead: nat)
    requires a <= n
    ensures a * m <= (m + lead) * n
  {
    assert a * m <= n * m by { MulMonotone(a, n, m); }
    assert (m + lead) * n == n * m + lead * n;
  }

  lemma MulMonotone(a: nat, b: nat, m: nat)
    requires a <= b
    ensures a * m <= b * m
  {
    assert b * m == a * m + (b - a) * m;
  }

  lemma StillNotAhead(lead: nat, servedI: nat, sizeI: nat, servedJ: nat, more: nat, sizeJ: nat)
    requires NotAhead(lead, servedI, sizeI, servedJ, sizeJ) && servedJ <= more
    ensures NotAhead(lead, servedI, sizeI, more, sizeJ)
  {
    MulMonotone(servedJ + lead, more + lead, sizeI);
  }

  lemma SelfNotAhead(lead: nat, served: nat, size: nat)
    ensures NotAhead(lead, served, size, served, size)
  {
    if served > 0 { MulMonotone(served - 1 + lead, served + lead, size); }
  }

  /** In every schedule prefix no stratum is more than one pick ahead of another's share. */
  lemma PairwiseBound<K(!new)>(sizes: Strata<K>, lead: nat, rank: K -> nat, s: seq<K>, i: K, j: K)
    requires lead <= 1 && i in sizes && j in sizes
    requires Greedy(sizes, Share(sizes, lead), rank, s)
    ensures NotAhead(lead, multiset(s)[i], sizes[i], multiset(s)[j], sizes[j])
  {
    if i == j {
      SelfNotAhead(lead, multiset(s)[i], sizes[i]);
    } else if multiset(s)[i] > 0 {
      var t := LastPick(sizes, Share(sizes, lead), rank, s, i);
      PickNotAhead(sizes, lead, rank, multiset(s[..t]), i, j);
      CountsGrow(s, t, j);
      StillNotAhead(lead, multiset(s)[i], sizes[i], multiset(s[..t])[j], multiset(s)[j], sizes[j]);
    }
  }

  lemma WithoutStratum<K(!new)>(sizes: Strata<K>, served: multiset<K>, i: K)
    requires i in sizes
    ensures Sum(Counts(sizes, served) - {i}) == Sum(Counts(sizes, served)) - served[i]
    ensures Sum(sizes - {i}) == Total(sizes) - sizes[i]
  {
    SumSplit(Counts(sizes, served), i);
    SumSplit(sizes, i);
  }

  lemma UnpackPair(lead: nat, servedI: nat, sizeI: nat, servedJ: nat, sizeJ: nat)
    requires NotAhead(lead, servedI, sizeI, servedJ, sizeJ)
    ensures servedI > 0 ==> (servedI - 1 + lead) * sizeJ <= sizeI * (servedJ + lead)
    ensures lead == 1 ==> sizeJ * servedI <= (servedJ + 1) * sizeI
  {
    if servedI == 0 { assert 0 <= (servedJ + 1) * sizeI; }
  }

  lemma UpperFromPairs<K(!new)>(sizes: Strata<K>, served: multiset<K>, i: K)
    requires i in sizes
    requires forall j :: j in sizes ==> NotAhead(0, served[i], sizes[i], served[j], sizes[j])
    ensures served[i] * Total(sizes) <= Sum(Counts(sizes, served)) * sizes[i] + Total(sizes) - sizes[i]
  {
    hide NotAhead;
    WithoutStratum(sizes, served, i);
    var counts := Counts(sizes, served) - {i};
    var others := sizes - {i};
    var c := served[i];
    if c > 0 {
      forall j | j in others ensures (c - 1) * others[j] <= sizes[i] * counts[j] {
        UnpackPair(0, served[i], sizes[i], served[j], sizes[j]);
      }
      SumScaled(others, counts, c - 1, sizes[i]);
      UpperArithmetic(c, Total(sizes), Sum(Counts(sizes, served)), sizes[i]);
    } else {
      SumNonNegative(others);
      SumNonNegative(Counts(sizes, served));
      assert 0 <= Sum(Counts(sizes, served)) * sizes[i];
    }
  }

  /** Upper quota of the V2 schedule: a stratum never passes its share by a whole row. */
  lemma UpperQuota<K(!new)>(sizes: Strata<K>, rank: K -> nat, s: seq<K>, i: K)
    requires i in sizes && Greedy(sizes, Share(sizes, 0), rank, s)
    ensures multiset(s)[i] * Total(sizes) <= |s| * sizes[i] + Total(sizes) - sizes[i]
  {
    GreedyWithin(sizes, Share(sizes, 0), rank, s);
    forall j | j in sizes ensures NotAhead(0, multiset(s)[i], sizes[i], multiset(s)[j], sizes[j]) {
      PairwiseBound(sizes, 0, rank, s, i, j);
    }
    UpperFromPairs(sizes, multiset(s), i);
  }

  lemma UpperArithmetic(c: nat, total: int, k: int, n: int)
    requires c > 0 && (c - 1) * (total - n) <= n * (k - c)
    ensures c * total <= k * n + total - n
  {
    assert (c - 1) * (total - n) == c * total - total - c * n + n;
    assert n * (k - c) == k * n - c * n;
  }

  lemma LowerFromPairs<K(!new)>(sizes: Strata<K>, served: multiset<K>, i: K)
    requires i in sizes
    requires forall j :: j in sizes ==> NotAhead(1, served[j], sizes[j], served[i], sizes[i])
    ensures served[i] * Total(sizes) >= Sum(Counts(sizes, served)) * sizes[i] + sizes[i] - Total(sizes)
    ensures 0 < Total(sizes)
  {
    hide NotAhead;
    WithoutStratum(sizes, served, i);
    var counts := Counts(sizes, served) - {i};
    var others := sizes - {i};
    var c := served[i];
    forall j | j in others ensures sizes[i] * counts[j] <= (c + 1) * others[j] {
      UnpackPair(1, served[j], sizes[j], served[i], sizes[i]);
    }
    SumScaled(counts, others, sizes[i], c + 1);
    SumNonNegative(others);
    LowerArithmetic(c, Total(sizes), Sum(Counts(sizes, served)), sizes[i]);
  }

  /** Lower quota of the V1 allocation: every stratum gets at least its share rounded down. */
  lemma LowerQuota<K(!new)>(sizes: Strata<K>, rank: K -> nat, s: seq<K>, i: K)
    requires i in sizes && Greedy(sizes, Share(sizes, 1), rank, s)
    ensures multiset(s)[i] * Total(sizes) >= |s| * sizes[i] + sizes[i] - Total(sizes)
    ensures Total(sizes) > 0 && multiset(s)[i] >= (|s| * sizes[i]) / Total(sizes)
  {
    GreedyWithin(sizes, Share(sizes, 1), rank, s);
    forall j | j in sizes ensures NotAhead(1, multiset(s)[j], sizes[j], multiset(s)[i], sizes[i]) {
      PairwiseBound(sizes, 1, rank, s, j, i);
    }
    LowerFromPairs(sizes, multiset(s), i);
    FloorBound(multiset(s)[i], Total(sizes), |s|, sizes[i]);
  }

  lemma LowerArithmetic(c: nat, total: int, k: int, n: int)
    requires n * (k - c) <= (c + 1) * (total - n)
    ensures c * total >= k * n + n - total
  {
    assert (c + 1) * (total - n) == c * total + total - c * n - n;
    assert n * (k - c) == k * n - c * n;
  }

  lemma FloorBound(c: nat, total: int, k: nat, n: Size)
    requires total > 0 && c * total >= k * n + n - total
    ensures c >= (k * n) / total
  {
    var x := k * n;
    assert x >= 0;
    var q := x / total;
    assert q * total <= x by { assert x == q * total + x % total; }
    assert (c + 1) * total == c * total + total;
    if c + 1 <= q {
      MulMonotone(c + 1, q, total);
    }
  }

  // ----- The other quota, and exactly when it is met -----

  /** However far the strata are apart, stratum `i` lags by less than `(|sizes| - 1) * sizes[i]`
      (V2) or leads by less than that (V1), measured against its share. */
  lemma LagFromPairs<K(!new)>(sizes: Strata<K>, served: multiset<K>, i: K)
    requires i in sizes
    requires forall j :: j in sizes ==> NotAhead(0, served[j], sizes[j], served[i], sizes[i])
    ensures served[i] * Total(sizes) >= (Sum(Counts(sizes, served)) - (|sizes| - 1)) * sizes[i]
  {
    hide NotAhead;
    WithoutStratum(sizes, served, i);
    var counts := Counts(sizes, served) - {i};
    var others := sizes - {i};
    var behind := Shifted(counts, -1);
    forall j | j in others ensures sizes[i] * behind[j] <= served[i] * others[j] {
      UnpackLag(served[j], sizes[j], served[i], sizes[i]);
    }
    SumScaled(behind, others, sizes[i], served[i]);
    SumShifted(counts, -1);
    OthersSize(sizes, served, i);
    LagArithmetic(served[i], Total(sizes), Sum(Counts(sizes, served)), sizes[i], |sizes|);
  }

  lemma UnpackLag(servedJ: nat, sizeJ: Size, servedI: nat, sizeI: Size)
    requires NotAhead(0, servedJ, sizeJ, servedI, sizeI)
    ensures sizeI * (servedJ - 1) <= servedI * sizeJ
  {
    if servedJ == 0 { assert 0 <= servedI * sizeJ; }
  }

  lemma OthersSize<K(!new)>(sizes: Strata<K>, served: multiset<K>, i: K)
    requires i in sizes
    ensures |Counts(sizes, served) - {i}| == |sizes - {i}| == |sizes| - 1
  {
    assert (sizes - {i}).Keys == sizes.Keys - {i};
    assert (Counts(sizes, served) - {i}).Keys == sizes.Keys - {i};
  }

  lemma LagArithmetic(c: nat, total: int, k: int, n: int, strata: int)
    requires n * (k - c - (strata - 1)) <= c * (total - n)
    ensures c * total >= (k - (strata - 1)) * n
  {
    assert n * (k - c - (strata - 1)) == (k - (strata - 1)) * n - c * n;
    assert c * (total - n) == c * total - c * n;
  }

  /** How far V2 can leave a stratum behind. */
  lemma LagBound<K(!new)>(sizes: Strata<K>, rank: K -> nat, s: seq<K>, i: K)
    requires i in sizes && Greedy(sizes, Share(sizes, 0), rank, s)
    ensures multiset(s)[i] * Total(sizes) >= (|s| - (|sizes| - 1)) * sizes[i]
  {
    hide NotAhead, Greedy;
    GreedyWithin(sizes, Share(sizes, 0), rank, s);
    forall j | j in sizes ensures NotAhead(0, multiset(s)[j], sizes[j], multiset(s)[i], sizes[i]) {
      PairwiseBound(sizes, 0, rank, s, j, i);
    }
    LagFromPairs(sizes, multiset(s), i);
  }

  lemma LeadFromPairs<K(!new)>(sizes: Strata<K>, served: multiset<K>, i: K)
    requires i in sizes
    requires forall j :: j in sizes ==> NotAhead(1, served[i], sizes[i], served[j], sizes[j])
    ensures served[i] * Total(sizes) <= (Sum(Counts(sizes, served)) + (|sizes| - 1)) * sizes[i]
  {
    hide NotAhead;
    WithoutStratum(sizes, served, i);
    var counts := Counts(sizes, served) - {i};
    var others := sizes - {i};
    var ahead := Shifted(counts, 1);
    forall j | j in others ensures served[i] * others[j] <= sizes[i] * ahead[j] {
      UnpackPair(1, served[i], sizes[i], served[j], sizes[j]);
    }
    SumScaled(others, ahead, served[i], sizes[i]);
    SumShifted(counts, 1);
    OthersSize(sizes, served, i);
    LeadArithmetic(served[i], Total(sizes), Sum(Counts(sizes, served)), sizes[i], |sizes|);
  }

  lemma LeadArithmetic(c: nat, total: int, k: int, n: int, strata: int)
    requires c * (total - n) <= n * (k - c + (strata - 1))
    ensures c * total <= (k + (strata - 1)) * n
  {
    assert n * (k - c + (strata - 1)) == (k + (strata - 1)) * n - c * n;
    assert c * (total - n) == c * total - c * n;
  }

  /** How far V1 can let a stratum run ahead. */
  lemma LeadBound<K(!new)>(sizes: Strata<K>, rank: K -> nat, s: seq<K>, i: K)
    requires i in sizes && Greedy(sizes, Share(sizes, 1), rank, s)
    ensures multiset(s)[i] * Total(sizes) <= (|s| + (|sizes| - 1)) * sizes[i]
  {
    hide NotAhead, Greedy;
    GreedyWithin(sizes, Share(sizes, 1), rank, s);
    forall j | j in sizes ensures NotAhead(1, multiset(s)[i], sizes[i], multiset(s)[j], sizes[j]) {
      PairwiseBound(sizes, 1, rank, s, i, j);
    }
    LeadFromPairs(sizes, multiset(s), i);
  }

  /** In every prefix of every schedule, stratum `i` has at least its share rounded down ... */
  ghost predicate KeepsLowerQuota<K(!new)>(sizes: Strata<K>, lead: nat, i: K)
    requires i in sizes
  {
    forall rank: K -> nat, s: seq<K> :: Injective(rank) && Greedy(sizes, Share(sizes, lead), rank, s) ==>
      |s| * sizes[i] < (multiset(s)[i] + 1) * Total(sizes)
  }

  /** ... and at most its share rounded up. */
  ghost predicate KeepsUpperQuota<K(!new)>(sizes: Strata<K>, lead: nat, i: K)
    requires i in sizes
  {
    forall rank: K -> nat, s: seq<K> :: Injective(rank) && Greedy(sizes, Share(sizes, lead), rank, s) ==>
      (multiset(s)[i] - 1) * Total(sizes) < |s| * sizes[i]
  }

  /** The stratum is small enough: its rows, once for every other stratum, are fewer than all
      rows. Always so for at most two strata. */
  ghost predicate Small<K(!new)>(sizes: Strata<K>, i: K)
    requires i in sizes
  {
    (|sizes| - 1) * sizes[i] < Total(sizes)
  }

  /** The same ranking, except that `i` comes before everything. */
  function Foremost<K(==,!new)>(rank: K -> nat, i: K): K -> nat {
    (k: K) => if k == i then 0 else rank(k) + 1
  }

  /** The same ranking, except that `i` comes after every `k` with `rank(k) < top`. */
  function Hindmost<K(==,!new)>(rank: K -> nat, i: K, top: nat): K -> nat {
    (k: K) => if k == i then top else if rank(k) < top then rank(k) else rank(k) + 1
  }

  lemma {:induction false} RanksBelow<K(!new)>(rank: K -> nat, ks: set<K>) returns (top: nat)
    ensures forall k :: k in ks ==> rank(k) < top
    decreases |ks|
  {
    if ks == {} {
      top := 0;
    } else {
      var k :| k in ks;
      var below := RanksBelow(rank, ks - {k});
      top := if below <= rank(k) then rank(k) + 1 else below;
    }
  }

  /** A V2 pick of the hindmost stratum comes only once every other one was served. */
  lemma HindmostWaits<K(!new)>(sizes: Strata<K>, rank: K -> nat, served: multiset<K>, i: K)
    requires forall j :: j in sizes && j != i ==> rank(j) < rank(i)
    requires Within(sizes, served) && Next(sizes, Share(sizes, 0), rank, served, i)
    ensures |sizes| - 1 <= Sum(Counts(sizes, served))
  {
    var others := Counts(sizes, served) - {i};
    forall j | j in others ensures others[j] >= 1 {
      if served[j] == 0 {
        assert Waiting(sizes, served, j);
        assert Before(Share(sizes, 0), rank, served, i, j);
        CompareShares(sizes, 0, j, 0, i, served[i]);
      }
    }
    SumAtLeastSize(others);
    WithoutStratum(sizes, served, i);
    OthersSize(sizes, served, i);
  }

  /** V2 fails a stratum that is not small: when it ranks last, the first `|sizes| - 1` rows
      all go elsewhere, and by then a whole row is its share. */
  lemma Starved<K(!new)>(sizes: Strata<K>, i: K, rank0: K -> nat) returns (rank: K -> nat, s: seq<K>)
    requires i in sizes && Injective(rank0) && !Small(sizes, i)
    ensures Injective(rank) && Greedy(sizes, Share(sizes, 0), rank, s)
    ensures (multiset(s)[i] + 1) * Total(sizes) <= |s| * sizes[i]
  {
    var top := RanksBelow(rank0, sizes.Keys);
    rank := Hindmost(rank0, i, top);
    var n := |sizes| - 1;
    SumAtLeastSize(sizes);
    s := Schedule(sizes, Share(sizes, 0), rank, n);
    ScheduleGreedy(sizes, Share(sizes, 0), rank, n);
    if multiset(s)[i] > 0 {
      var t := LastPick(sizes, Share(sizes, 0), rank, s, i);
      GreedyPrefix(sizes, Share(sizes, 0), rank, s, t);
      GreedyWithin(sizes, Share(sizes, 0), rank, s[..t]);
      HindmostWaits(sizes, rank, multiset(s[..t]), i);
    }
  }

  /** V1 serves no stratum its last row while the foremost one still waits. */
  lemma ForemostFirst<K(!new)>(sizes: Strata<K>, rank: K -> nat, served: multiset<K>, i: K, j: K)
    requires i in sizes && j in sizes && rank(i) < rank(j) && served[j] + 1 == sizes[j]
    requires Next(sizes, Share(sizes, 1), rank, served, j)
    ensures served[i] >= sizes[i]
  {
    if served[i] < sizes[i] {
      assert Before(Share(sizes, 1), rank, served, j, i);
      CompareShares(sizes, 1, i, served[i], j, served[j]);
      MulMonotone(served[i] + 1, sizes[i], sizes[j]);
    }
  }

  /** V1 fails a stratum that is not small: when it ranks first, it has all its rows while
      every other stratum still misses one. */
  lemma Favoured<K(!new)>(sizes: Strata<K>, i: K, rank0: K -> nat) returns (rank: K -> nat, s: seq<K>)
    requires i in sizes && Injective(rank0) && !Small(sizes, i)
    ensures Injective(rank) && Greedy(sizes, Share(sizes, 1), rank, s)
    ensures (multiset(s)[i] - 1) * Total(sizes) >= |s| * sizes[i]
  {
    hide Greedy, Small;
    rank := Foremost(rank0, i);
    SumAtLeastSize(sizes);
    var n := Total(sizes) - (|sizes| - 1);
    s := Schedule(sizes, Share(sizes, 1), rank, n);
    ScheduleGreedy(sizes, Share(sizes, 1), rank, n);
    ForemostComplete(sizes, rank, s, i);
    NotSmallFavoured(sizes, i);
  }

  lemma ForemostComplete<K(!new)>(sizes: Strata<K>, rank: K -> nat, s: seq<K>, i: K)
    requires i in sizes && (forall j :: j != i ==> rank(i) < rank(j)) && Greedy(sizes, Share(sizes, 1), rank, s)
    requires |s| > Total(sizes) - |sizes|
    ensures multiset(s)[i] == sizes[i]
  {
    hide Greedy, Next;
    GreedyWithin(sizes, Share(sizes, 1), rank, s);
    WithinAt(sizes, multiset(s), i);
    if multiset(s)[i] < sizes[i] {
      var j := SomeFull(sizes, multiset(s), i);
      var t := LastPick(sizes, Share(sizes, 1), rank, s, j);
      ForemostFirst(sizes, rank, multiset(s[..t]), i, j);
      CountsGrow(s, t, i);
    }
  }

  lemma WithinAt<K(!new)>(sizes: Strata<K>, served: multiset<K>, i: K)
    requires Within(sizes, served) && i in sizes
    ensures served[i] <= sizes[i]
  {
    if served[i] > 0 { assert i in served; }
  }

  lemma NotSmallFavoured<K(!new)>(sizes: Strata<K>, i: K)
    requires i in sizes && !Small(sizes, i)
    ensures (sizes[i] - 1) * Total(sizes) >= (Total(sizes) - (|sizes| - 1)) * sizes[i]
  {
    FavouredArithmetic(sizes[i], Total(sizes), |sizes|);
  }

  lemma FavouredArithmetic(n: int, total: int, strata: int)
    requires (strata - 1) * n >= total
    ensures (n - 1) * total >= (total - (strata - 1)) * n
  {
    assert (total - (strata - 1)) * n == total * n - (strata - 1) * n;
  }

  /** With so many rows served and one missing at `i`, some stratum is complete. */
  lemma SomeFull<K(!new)>(sizes: Strata<K>, served: multiset<K>, i: K) returns (j: K)
    requires i in sizes && served[i] < sizes[i]
    requires Sum(Counts(sizes, served)) > Total(sizes) - |sizes|
    requires Within(sizes, served)
    ensures j in sizes && j != i && served[j] == sizes[j]
  {
    if forall j :: j in sizes ==> served[j] < sizes[j] {
      SumShifted(sizes, -1);
      SumMonotone(Counts(sizes, served), Shifted(sizes, -1));
    }
    j :| j in sizes && served[j] >= sizes[j];
    WithinAt(sizes, served, j);
  }

  /** Both samplers, both quotas: V2 always meets the upper one, V1 the lower one; each meets
      the other one, under every ranking, exactly for the small strata. */
  lemma QuotasExactly<K(!new)>(sizes: Strata<K>, i: K, rank0: K -> nat)
    requires i in sizes && Injective(rank0)
    ensures KeepsUpperQuota(sizes, 0, i) && KeepsLowerQuota(sizes, 1, i)
    ensures KeepsLowerQuota(sizes, 0, i) <==> Small(sizes, i)
    ensures KeepsUpperQuota(sizes, 1, i) <==> Small(sizes, i)
  {
    OwnQuotas(sizes, i);
    OtherQuotas(sizes, i);
    hide Injective, Greedy;
    if !Small(sizes, i) {
      var rank, s := Starved(sizes, i, rank0);
      var rank', s' := Favoured(sizes, i, rank0);
    }
  }

  lemma OwnQuotas<K(!new)>(sizes: Strata<K>, i: K)
    requires i in sizes
    ensures KeepsUpperQuota(sizes, 0, i) && KeepsLowerQuota(sizes, 1, i)
  {
    hide Injective, Greedy;
    forall rank: K -> nat, s: seq<K> | Injective(rank) && Greedy(sizes, Share(sizes, 0), rank, s)
      ensures (multiset(s)[i] - 1) * Total(sizes) < |s| * sizes[i]
    {
      UpperQuota(sizes, rank, s, i);
    }
    forall rank: K -> nat, s: seq<K> | Injective(rank) && Greedy(sizes, Share(sizes, 1), rank, s)
      ensures |s| * sizes[i] < (multiset(s)[i] + 1) * Total(sizes)
    {
      LowerQuota(sizes, rank, s, i);
    }
  }

  lemma OtherQuotas<K(!new)>(sizes: Strata<K>, i: K)
    requires i in sizes
    ensures Small(sizes, i) ==> KeepsLowerQuota(sizes, 0, i) && KeepsUpperQuota(sizes, 1, i)
  {
    hide Injective, Greedy;
    if Small(sizes, i) {
      forall rank: K -> nat, s: seq<K> | Injective(rank) && Greedy(sizes, Share(sizes, 0), rank, s)
        ensures |s| * sizes[i] < (multiset(s)[i] + 1) * Total(sizes)
      {
        LagBound(sizes, rank, s, i);
        SmallEnough(multiset(s)[i], Total(sizes), |s|, sizes[i], |sizes|);
      }
      forall rank: K -> nat, s: seq<K> | Injective(rank) && Greedy(sizes, Share(sizes, 1), rank, s)
        ensures (multiset(s)[i] - 1) * Total(sizes) < |s| * sizes[i]
      {
        LeadBound(sizes, rank, s, i);
        SmallEnough(multiset(s)[i], Total(sizes), |s|, sizes[i], |sizes|);
      }
    }
  }

  lemma SmallEnough(c: nat, total: int, k: int, n: int, strata: int)
    requires (strata - 1) * n < total
    ensures c * total >= (k - (strata - 1)) * n ==> k * n < (c + 1) * total
    ensures c * total <= (k + (strata - 1)) * n ==> (c - 1) * total < k * n
  {
    assert (k - (strata - 1)) * n == k * n - (strata - 1) * n;
    assert (k + (strata - 1)) * n == k * n + (strata - 1) * n;
    assert (c + 1) * total == c * total + total;
    assert (c - 1) * total == c * total - total;
  }

  /** At most two strata are always small; from three on, some are not. */
  lemma TwoStrataSmall<K(!new)>(sizes: Strata<K>, i: K)
    requires i in sizes && |sizes| <= 2
    ensures Small(sizes, i)
  {
    SumSplit(sizes, i);
    OthersSize(sizes, multiset{}, i);
    SumAtLeastSize(sizes - {i});
    TimesAtMostOne(|sizes| - 1, sizes[i]);
  }

  lemma TimesAtMostOne(a: int, n: nat)
    requires a <= 1
    ensures a * n <= n
  {
  }

  lemma ManyStrataNotSmall(count: nat) returns (sizes: Strata<nat>)
    requires count >= 3
    ensures |sizes| == count && 0 in sizes && !Small(sizes, 0)
  {
    sizes := TwoAndOnes(count);
    assert (count - 1) * 2 >= count + 1;
  }

  /** One stratum of two rows, and all others of one. */
  lemma {:induction false} TwoAndOnes(count: nat) returns (sizes: Strata<nat>)
    requires count >= 1
    ensures |sizes| == count && 0 in sizes && sizes[0] == 2 && Total(sizes) == count + 1
    ensures forall k :: k in sizes ==> k < count
  {
    if count == 1 {
      sizes := map[0 := 2];
      SumSplit(sizes, 0);
      assert sizes - {0} == map[];
    } else {
      var fewer := TwoAndOnes(count - 1);
      sizes := fewer[count - 1 := 1];
      SumUpdate<nat>(fewer, count - 1, 1);
      assert sizes.Keys == fewer.Keys + {count - 1};
    }
  }

  // ----- Neither priority meets both quotas -----

  const EXAMPLE: Strata<nat> := map[0 := 4, 1 := 1, 2 := 1]

  lemma ExampleTotal()
    ensures Total(EXAMPLE) == 6
  {
    SumSplit(EXAMPLE, 0);
    SumSplit(EXAMPLE - {0}, 1);
    SumSplit(EXAMPLE - {0} - {1}, 2);
    assert EXAMPLE - {0} - {1} - {2} == map[];
  }

  function ById(k: nat): nat { k }

  /** A scan's pick, checked with integers only. */
  lemma NextByProducts<K(!new)>(sizes: Strata<K>, lead: nat, rank: K -> nat, served: multiset<K>, k: K)
    requires Waiting(sizes, served, k)
    requires forall j :: Waiting(sizes, served, j) && j != k ==>
      var here, there := (served[k] + lead) * sizes[j], (served[j] + lead) * sizes[k];
      here < there || (here == there && rank(k) < rank(j))
    ensures Next(sizes, Share(sizes, lead), rank, served, k)
  {
    forall j | Waiting(sizes, served, j) && j != k
      ensures Before(Share(sizes, lead), rank, served, k, j)
    {
      CompareShares(sizes, lead, k, served[k], j, served[j]);
      CompareShares(sizes, lead, j, served[j], k, served[k]);
    }
  }

  /** `NextByProducts` on the example, where stratum 0 has four rows and 1 and 2 have one. */
  lemma ExamplePick(lead: nat, served: multiset<nat>, k: nat)
    requires k < 3 && served[k] < (if k == 0 then 4 else 1)
    requires forall j: nat :: j < 3 && j != k && served[j] < (if j == 0 then 4 else 1) ==>
      var here := (served[k] + lead) * (if j == 0 then 4 else 1);
      var there := (served[j] + lead) * (if k == 0 then 4 else 1);
      here < there || (here == there && k < j)
    ensures Next(EXAMPLE, Share(EXAMPLE, lead), ById, served, k)
  {
    NextByProducts(EXAMPLE, lead, ById, served, k);
  }

  lemma GreedyTriple(prio: (nat, nat) -> real, a: nat, b: nat, c: nat)
    requires Next(EXAMPLE, prio, ById, multiset{}, a)
    requires Next(EXAMPLE, prio, ById, multiset{a}, b)
    requires Next(EXAMPLE, prio, ById, multiset{a, b}, c)
    requires Total(EXAMPLE) == 6
    ensures Schedule(EXAMPLE, prio, ById, 3) == [a, b, c]
  {
    assert Greedy(EXAMPLE, prio, ById, []);
    assert [] + [a] == [a] && [a] + [b] == [a, b] && [a, b] + [c] == [a, b, c];
    GreedyAppend(EXAMPLE, prio, ById, [], a);
    GreedyAppend(EXAMPLE, prio, ById, [a], b);
    GreedyAppend(EXAMPLE, prio, ById, [a, b], c);
    ScheduleUnique(EXAMPLE, prio, ById, 3, [a, b, c]);
  }

  /** V2 keeps the upper quota only: three of six rows leave the size-4 stratum with
      one row, a whole row short of its share of two. */
  lemma V2MissesLowerQuota()
    ensures Injective(ById)
    ensures multiset(Schedule(EXAMPLE, Share(EXAMPLE, 0), ById, 3))[0] * Total(EXAMPLE)
      < 3 * EXAMPLE[0] + EXAMPLE[0] - Total(EXAMPLE)
  {
    ExampleTotal();
    ExamplePick(0, multiset{}, 0);
    ExamplePick(0, multiset{0}, 1);
    ExamplePick(0, multiset{0, 1}, 2);
    GreedyTriple(Share(EXAMPLE, 0), 0, 1, 2);
  }

  /** V1 keeps the lower quota only: the same three rows all go to the size-4 stratum,
      a whole row past its share of two. */
  lemma V1ExceedsUpperQuota()
    ensures Injective(ById)
    ensures multiset(Schedule(EXAMPLE, Share(EXAMPLE, 1), ById, 3))[0] * Total(EXAMPLE)
      > 3 * EXAMPLE[0] + Total(EXAMPLE) - EXAMPLE[0]
  {
    ExampleTotal();
    ExamplePick(1, multiset{}, 0);
    ExamplePick(1, multiset{0}, 0);
    ExamplePick(1, multiset{0, 0}, 0);
    GreedyTriple(Share(EXAMPLE, 1), 0, 0, 0);
  }
}
