/** The proportional scheduler shared by both samplers.

    A stratum that has been served `s` times out of `n` has priority
    `(s + lead) / n`; the scheduler serves a stratum of least priority, the
    smaller rank first. V2 schedules with `lead == 0`, V1 allocates with
    `lead == 1`. */
module FairQueue {
  import opened Sums

  type Size = n: int | 0 < n witness 1

  type Strata<!K> = map<K, Size>

  ghost predicate Injective<K(!new)>(rank: K -> nat) {
    forall a, b :: rank(a) == rank(b) ==> a == b
  }

  predicate Waiting<K(==)>(sizes: Strata<K>, served: multiset<K>, k: K) {
    k in sizes && served[k] < sizes[k]
  }

  ghost predicate Open<K(!new)>(sizes: Strata<K>, served: multiset<K>) {
    exists j :: Waiting(sizes, served, j)
  }

  /** Stratum `a` goes before `b`: lower priority value, then smaller rank. */
  predicate Before<K>(prio: (K, nat) -> real, rank: K -> nat, served: multiset<K>, a: K, b: K) {
    var pa, pb := prio(a, served[a]), prio(b, served[b]);
    pa < pb || (pa == pb && rank(a) < rank(b))
  }

  /** What one scan of every unexhausted stratum picks. */
  ghost predicate Next<K(!new)>(sizes: Strata<K>, prio: (K, nat) -> real, rank: K -> nat, served: multiset<K>, k: K) {
    && Waiting(sizes, served, k)
    && forall j :: Waiting(sizes, served, j) && j != k ==> Before(prio, rank, served, k, j)
  }

  /** Every pick of `s` is the one a scan would have made at that point. */
  ghost predicate Greedy<K(!new)>(sizes: Strata<K>, prio: (K, nat) -> real, rank: K -> nat, s: seq<K>) {
    forall i :: 0 <= i < |s| ==> Next(sizes, prio, rank, multiset(s[..i]), s[i])
  }

  ghost function Total<K(!new)>(sizes: Strata<K>): int {
    Sum(sizes)
  }

  // ----- The slow scheduler: scan again for every pick -----

  lemma {:induction false} NextExistsAmong<K(!new)>(
    sizes: Strata<K>, prio: (K, nat) -> real, rank: K -> nat, served: multiset<K>, among: set<K>)
    returns (k: K)
    requires Injective(rank) && among != {}
    requires forall j :: j in among ==> Waiting(sizes, served, j)
    ensures k in among
    ensures forall j :: j in among && j != k ==> Before(prio, rank, served, k, j)
    decreases |among|
  {
    var first :| first in among;
    var rest := among - {first};
    k := first;
    if rest == {} {
      assert among == {first};
    } else {
      var m := NextExistsAmong(sizes, prio, rank, served, rest);
      assert rank(m) != rank(first);
      k := if Before(prio, rank, served, m, first) then m else first;
      forall j | j in among && j != k ensures Before(prio, rank, served, k, j) {
        if j != first && j != m {
          assert j in rest;
          assert Before(prio, rank, served, m, j);
        }
      }
    }
  }

  lemma NextExists<K(!new)>(sizes: Strata<K>, prio: (K, nat) -> real, rank: K -> nat, served: multiset<K>)
    requires Injective(rank)
    requires Open(sizes, served)
    ensures exists k :: Next(sizes, prio, rank, served, k)
  {
    var among := set j | j in sizes && Waiting(sizes, served, j);
    var j :| Waiting(sizes, served, j);
    assert j in among;
    var k := NextExistsAmong(sizes, prio, rank, served, among);
    assert Next(sizes, prio, rank, served, k);
  }

  lemma NextUnique<K(!new)>(sizes: Strata<K>, prio: (K, nat) -> real, rank: K -> nat, served: multiset<K>, a: K, b: K)
    requires Next(sizes, prio, rank, served, a) && Next(sizes, prio, rank, served, b)
    ensures a == b
  {
  }

  /** One more scan, unless every stratum is exhausted. */
  ghost function Extend<K(!new)>(sizes: Strata<K>, prio: (K, nat) -> real, rank: K -> nat, s: seq<K>): (r: seq<K>)
    requires Injective(rank)
    ensures Open(sizes, multiset(s)) ==>
      |r| == |s| + 1 && r == s + [r[|s|]] && Next(sizes, prio, rank, multiset(s), r[|s|])
    ensures !Open(sizes, multiset(s)) ==> r == s
  {
    if Open(sizes, multiset(s)) then
      NextExists(sizes, prio, rank, multiset(s));
      var k :| Next(sizes, prio, rank, multiset(s), k);
      s + [k]
    else
      s
  }

  ghost function Schedule<K(!new)>(sizes: Strata<K>, prio: (K, nat) -> real, rank: K -> nat, limit: nat): seq<K>
    requires Injective(rank)
  {
    if limit == 0 then [] else Extend(sizes, prio, rank, Schedule(sizes, prio, rank, limit - 1))
  }

  lemma GreedyAppend<K(!new)>(sizes: Strata<K>, prio: (K, nat) -> real, rank: K -> nat, s: seq<K>, k: K)
    requires Greedy(sizes, prio, rank, s) && Next(sizes, prio, rank, multiset(s), k)
    ensures Greedy(sizes, prio, rank, s + [k])
  {
    var t := s + [k];
    forall i | 0 <= i < |t| ensures Next(sizes, prio, rank, multiset(t[..i]), t[i]) {
      assert t[..i] == s[..i];
      if i == |s| { assert s[..i] == s; }
    }
  }

  lemma GreedyPrefix<K(!new)>(sizes: Strata<K>, prio: (K, nat) -> real, rank: K -> nat, s: seq<K>, n: nat)
    requires Greedy(sizes, prio, rank, s) && n <= |s|
    ensures Greedy(sizes, prio, rank, s[..n])
  {
    forall i | 0 <= i < n ensures s[..n][..i] == s[..i] {}
  }

  /** A greedy sequence is determined by its length: no enumeration order matters. */
  lemma {:induction false} GreedyUnique<K(!new)>(sizes: Strata<K>, prio: (K, nat) -> real, rank: K -> nat, s: seq<K>, t: seq<K>)
    requires Greedy(sizes, prio, rank, s) && Greedy(sizes, prio, rank, t)
    requires |s| <= |t|
    ensures s == t[..|s|]
  {
    if s != [] {
      var n := |s| - 1;
      GreedyPrefix(sizes, prio, rank, s, n);
      GreedyUnique(sizes, prio, rank, s[..n], t);
      assert s[..n] == t[..n];
      NextUnique(sizes, prio, rank, multiset(s[..n]), s[n], t[n]);
      assert s == s[..n] + [s[n]];
      assert t[..|s|] == t[..n] + [t[n]];
    }
  }

  // ----- Counting served rows -----

  ghost predicate Within<K(!new)>(sizes: Strata<K>, served: multiset<K>) {
    forall k :: k in served ==> k in sizes && served[k] <= sizes[k]
  }

  ghost function Counts<K(!new)>(sizes: Strata<K>, served: multiset<K>): map<K, int> {
    map k | k in sizes :: served[k]
  }

  lemma CountsAdd<K(!new)>(sizes: Strata<K>, served: multiset<K>, k: K)
    requires k in sizes
    ensures Sum(Counts(sizes, served + multiset{k})) == Sum(Counts(sizes, served)) + 1
  {
    var c := Counts(sizes, served);
    SumUpdate(c, k, c[k] + 1);
    assert Counts(sizes, served + multiset{k}) == c[k := c[k] + 1];
  }

  lemma SplitLast<K>(s: seq<K>)
    requires s != []
    ensures s == s[..|s| - 1] + [s[|s| - 1]]
    ensures multiset(s) == multiset(s[..|s| - 1]) + multiset{s[|s| - 1]}
  {
    assert s == s[..|s| - 1] + [s[|s| - 1]];
  }

  /** No stratum is served beyond its size, and every pick is counted once. */
  lemma {:induction false} GreedyWithin<K(!new)>(sizes: Strata<K>, prio: (K, nat) -> real, rank: K -> nat, s: seq<K>)
    requires Greedy(sizes, prio, rank, s)
    ensures Within(sizes, multiset(s))
    ensures Sum(Counts(sizes, multiset(s))) == |s|
  {
    if s == [] {
      SumZero(Counts(sizes, multiset(s)));
    } else {
      var n := |s| - 1;
      GreedyPrefix(sizes, prio, rank, s, n);
      GreedyWithin(sizes, prio, rank, s[..n]);
      SplitLast(s);
      assert Next(sizes, prio, rank, multiset(s[..n]), s[n]);
      CountsAdd(sizes, multiset(s[..n]), s[n]);
    }
  }

  lemma OpenIffShort<K(!new)>(sizes: Strata<K>, served: multiset<K>)
    requires Within(sizes, served)
    ensures Sum(Counts(sizes, served)) <= Total(sizes)
    ensures Open(sizes, served) <==> Sum(Counts(sizes, served)) < Total(sizes)
  {
    var c := Counts(sizes, served);
    assert forall k :: k in c ==> c[k] <= sizes[k];
    SumMonotone(c, sizes);
    if Sum(c) == Sum(sizes) {
      SumEqualForcesEqual(c, sizes);
      forall j ensures !Waiting(sizes, served, j) {
        if j in sizes { assert c[j] == sizes[j]; }
      }
    } else if !Open(sizes, served) {
      forall k | k in sizes ensures c[k] == sizes[k] {
        assert !Waiting(sizes, served, k);
      }
      SumMonotone(sizes, c);
    }
  }

  function Capped(limit: nat, total: int): int {
    if limit <= total then limit else total
  }

  lemma ExtendGreedy<K(!new)>(sizes: Strata<K>, prio: (K, nat) -> real, rank: K -> nat, s: seq<K>)
    requires Injective(rank) && Greedy(sizes, prio, rank, s)
    ensures Greedy(sizes, prio, rank, Extend(sizes, prio, rank, s))
    ensures |s| <= Total(sizes)
    ensures |Extend(sizes, prio, rank, s)| == if |s| < Total(sizes) then |s| + 1 else |s|
  {
    GreedyWithin(sizes, prio, rank, s);
    OpenIffShort(sizes, multiset(s));
    if Open(sizes, multiset(s)) {
      GreedyAppend(sizes, prio, rank, s, Extend(sizes, prio, rank, s)[|s|]);
    }
  }

  /** The schedule is greedy and stops only when every row is scheduled. */
  lemma {:induction false} ScheduleGreedy<K(!new)>(sizes: Strata<K>, prio: (K, nat) -> real, rank: K -> nat, limit: nat)
    requires Injective(rank)
    ensures Greedy(sizes, prio, rank, Schedule(sizes, prio, rank, limit))
    ensures |Schedule(sizes, prio, rank, limit)| == Capped(limit, Total(sizes))
  {
    if limit == 0 {
      GreedyWithin(sizes, prio, rank, []);
      OpenIffShort(sizes, multiset([]));
    } else {
      ScheduleGreedy(sizes, prio, rank, limit - 1);
      ExtendGreedy(sizes, prio, rank, Schedule(sizes, prio, rank, limit - 1));
    }
  }

  /** A finished schedule serves every stratum exactly its size. */
  lemma FullScheduleServesAll<K(!new)>(sizes: Strata<K>, prio: (K, nat) -> real, rank: K -> nat, s: seq<K>, k: K)
    requires Greedy(sizes, prio, rank, s) && |s| == Total(sizes) && k in sizes
    ensures multiset(s)[k] == sizes[k]
  {
    GreedyWithin(sizes, prio, rank, s);
    OpenIffShort(sizes, multiset(s));
    assert !Waiting(sizes, multiset(s), k);
    if multiset(s)[k] > 0 { assert k in multiset(s); }
  }

  /** Any greedy sequence of the right length is the schedule. */
  lemma ScheduleUnique<K(!new)>(sizes: Strata<K>, prio: (K, nat) -> real, rank: K -> nat, limit: nat, s: seq<K>)
    requires Injective(rank) && Greedy(sizes, prio, rank, s)
    requires |s| == Capped(limit, Total(sizes))
    ensures s == Schedule(sizes, prio, rank, limit)
  {
    ScheduleGreedy(sizes, prio, rank, limit);
    GreedyUnique(sizes, prio, rank, s, Schedule(sizes, prio, rank, limit));
  }

  /** Nesting: a larger limit extends the same schedule. */
  lemma ScheduleNested<K(!new)>(sizes: Strata<K>, prio: (K, nat) -> real, rank: K -> nat, small: nat, large: nat)
    requires Injective(rank) && small <= large
    ensures Schedule(sizes, prio, rank, small) <= Schedule(sizes, prio, rank, large)
  {
    ScheduleGreedy(sizes, prio, rank, small);
    ScheduleGreedy(sizes, prio, rank, large);
    GreedyUnique(sizes, prio, rank, Schedule(sizes, prio, rank, small), Schedule(sizes, prio, rank, large));
  }

  lemma CountsGrow<K>(s: seq<K>, t: nat, k: K)
    requires t <= |s|
    ensures multiset(s[..t])[k] <= multiset(s)[k]
  {
    assert s == s[..t] + s[t..];
  }

  /** The moment a stratum was last served. */
  lemma {:induction false} LastPick<K(!new)>(sizes: Strata<K>, prio: (K, nat) -> real, rank: K -> nat, s: seq<K>, i: K)
    returns (t: nat)
    requires Greedy(sizes, prio, rank, s) && multiset(s)[i] > 0
    ensures t < |s| && Next(sizes, prio, rank, multiset(s[..t]), i)
    ensures multiset(s)[i] == multiset(s[..t])[i] + 1
    ensures Within(sizes, multiset(s[..t]))
  {
    var n := |s| - 1;
    SplitLast(s);
    GreedyPrefix(sizes, prio, rank, s, n);
    if s[n] == i {
      t := n;
      GreedyWithin(sizes, prio, rank, s[..n]);
    } else {
      t := LastPick(sizes, prio, rank, s[..n], i);
      assert s[..n][..t] == s[..t];
    }
  }
}
