/** `sampling.py`: the V1 allocation and the stratified selection that keeps table order. */
module V1Sampling {
  import opened Wrappers
  import opened Ranking
  import opened Sums
  import opened FairQueue
  import opened Apportionment
  import opened HeapSchedule
  import opened Queues
  import opened Sorting
  import opened SentenceTable
  import opened Selection
  import V2Sampling

  // ----- _allocation -----

  function Positives<K>(capacities: map<K, int>): Strata<K> {
    map k | k in capacities && capacities[k] > 0 :: capacities[k]
  }

  /** Serve `target` rows one by one, each to the stratum with the smallest prospective
      fraction, and count. */
  ghost function Allocation<K(!new)>(capacities: map<K, int>, target: nat, rank: K -> nat): (given: map<K, nat>)
    requires Injective(rank)
    ensures given.Keys == capacities.Keys
  {
    var sizes := Positives(capacities);
    var served := Schedule(sizes, Share(sizes, 1), rank, target);
    map k | k in capacities :: multiset(served)[k]
  }

  /** One entry per stratum that has rows. */
  method SeedFractions<K(!new,==)>(capacities: map<K, int>, rank: K -> nat) returns (heap: seq<Entry<K>>)
    ensures Current(heap, Positives(capacities), Share(Positives(capacities), 1), rank, multiset{})
  {
    hide Current;
    var sizes := Positives(capacities);
    ghost var prio := Share(sizes, 1);
    heap := [];
    var left := capacities.Keys;
    while left != {}
      invariant left <= capacities.Keys
      invariant forall i :: 0 <= i < |heap| ==>
        UpToDate(heap[i], sizes, prio, rank, multiset{}) && heap[i].key !in left
      invariant forall i, j :: 0 <= i < j < |heap| ==> heap[i].key != heap[j].key
      invariant forall k :: k in sizes && k !in left ==> HasKey(heap, k)
      decreases |left|
    {
      var key :| key in left;
      if capacities[key] > 0 {
        ghost var prior := heap;
        heap := heap + [Entry(1.0 / capacities[key] as real, rank(key), 0, key, 0)];
        StillHasKeys(prior, heap[|prior|]);
      }
      left := left - {key};
    }
    AllCurrent(heap, sizes, prio, rank);
  }

  lemma StillHasKeys<K(!new)>(heap: seq<Entry<K>>, e: Entry<K>)
    ensures forall k :: HasKey(heap, k) ==> HasKey(heap + [e], k)
    ensures HasKey(heap + [e], e.key)
  {
    assert (heap + [e])[|heap|].key == e.key;
    forall k | HasKey(heap, k) ensures HasKey(heap + [e], k) {
      var i :| 0 <= i < |heap| && heap[i].key == k;
      assert (heap + [e])[i].key == k;
    }
  }

  lemma AllCurrent<K(!new)>(heap: seq<Entry<K>>, sizes: Strata<K>, prio: (K, nat) -> real, rank: K -> nat)
    requires forall i :: 0 <= i < |heap| ==> UpToDate(heap[i], sizes, prio, rank, multiset{})
    requires forall i, j :: 0 <= i < j < |heap| ==> heap[i].key != heap[j].key
    requires forall k :: k in sizes ==> HasKey(heap, k)
    ensures Current(heap, sizes, prio, rank, multiset{})
  {
  }

  /** The heap runs dry exactly when every row is served. */
  lemma DryHeap<K(!new)>(heap: seq<Entry<K>>, sizes: Strata<K>, prio: (K, nat) -> real, rank: K -> nat, s: seq<K>)
    requires Greedy(sizes, prio, rank, s) && Current(heap, sizes, prio, rank, multiset(s))
    ensures |s| <= Total(sizes) && (heap == [] <==> |s| == Total(sizes))
  {
    GreedyWithin(sizes, prio, rank, s);
    OpenIffShort(sizes, multiset(s));
    if heap != [] {
      assert UpToDate(heap[0], sizes, prio, rank, multiset(s));
    } else {
      forall k ensures !Waiting(sizes, multiset(s), k) {
        assert !HasKey(heap, k);
      }
    }
  }

  /** `_allocation`; popping an empty heap raises. */
  method Allocate<K(!new,==)>(capacities: map<K, int>, target: nat, rank: K -> nat) returns (r: Result<map<K, nat>>)
    requires Injective(rank)
    ensures r.Ok? <==> target <= Total(Positives(capacities))
    ensures r.Ok? ==> r.value == Allocation(capacities, target, rank)
  {
    hide Current, Greedy, Schedule, UpToDate, Next, Counted, HeapSchedule.Less;
    var sizes := Positives(capacities);
    ghost var prio := Share(sizes, 1);
    var result: map<K, nat> := map k | k in capacities :: 0;
    var heap := SeedFractions(capacities, rank);
    ghost var served: seq<K> := [];
    NothingServed(capacities, sizes, prio, rank);
    for i := 0 to target
      invariant |served| == i && Greedy(sizes, prio, rank, served)
      invariant Current(heap, sizes, prio, rank, multiset(served))
      invariant Counted(result, capacities, served)
    {
      DryHeap(heap, sizes, prio, rank, served);
      if heap == [] {
        return Err("index out of range");
      }
      var least, rest := PopLeast(heap);
      var e := heap[least];
      LeastIsNext(heap, least, sizes, prio, rank, multiset(served));
      GreedyAppend(sizes, prio, rank, served, e.key);
      PoppedEntry(heap, least, sizes, prio, rank, multiset(served));
      var next := rest;
      if e.served + 1 < capacities[e.key] {
        next := rest + [Entry((e.served + 2) as real / sizes[e.key] as real, e.rank, e.ordinal, e.key, e.served + 1)];
      }
      PopKeepsCurrent(heap, least, rest, next, sizes, prio, rank, multiset(served));
      heap := next;
      CountOne(result, capacities, served, e.key);
      result := result[e.key := result[e.key] + 1];
      served := served + [e.key];
    }
    DryHeap(heap, sizes, prio, rank, served);
    CountedAll(result, capacities, served);
    ScheduleUnique(sizes, prio, rank, target, served);
    r := Ok(result);
  }

  lemma NothingServed<K(!new)>(capacities: map<K, int>, sizes: Strata<K>, prio: (K, nat) -> real, rank: K -> nat)
    ensures Greedy(sizes, prio, rank, []) && Counted(map k | k in capacities :: 0, capacities, [])
  {
  }

  ghost predicate Counted<K(!new)>(result: map<K, nat>, capacities: map<K, int>, served: seq<K>) {
    result.Keys == capacities.Keys && forall k :: k in result ==> result[k] == multiset(served)[k]
  }

  lemma CountOne<K(!new)>(result: map<K, nat>, capacities: map<K, int>, served: seq<K>, key: K)
    requires Counted(result, capacities, served) && key in capacities
    ensures key in result && Counted(result[key := result[key] + 1], capacities, served + [key])
  {
    assert multiset(served + [key]) == multiset(served) + multiset{key};
  }

  lemma CountedAll<K(!new)>(result: map<K, nat>, capacities: map<K, int>, served: seq<K>)
    requires Counted(result, capacities, served)
    ensures result == map k | k in capacities :: multiset(served)[k]
  {
  }

  lemma PoppedEntry<K(!new)>(
    heap: seq<Entry<K>>, least: nat, sizes: Strata<K>, prio: (K, nat) -> real, rank: K -> nat, served: multiset<K>)
    requires Current(heap, sizes, prio, rank, served) && least < |heap|
    ensures heap[least].key in sizes && heap[least].served == served[heap[least].key]
  {
    assert UpToDate(heap[least], sizes, prio, rank, served);
  }

  // ----- What the allocation promises -----

  /** The allocation adds up, respects capacities and meets every lower quota. */
  lemma AllocationQuota<K(!new)>(capacities: map<K, int>, target: nat, rank: K -> nat, k: K)
    requires Injective(rank) && k in capacities && target <= Total(Positives(capacities))
    ensures Sum(Allocation(capacities, target, rank)) == target
    ensures capacities[k] <= 0 ==> Allocation(capacities, target, rank)[k] == 0
    ensures capacities[k] > 0 ==>
      && Allocation(capacities, target, rank)[k] <= capacities[k] && Total(Positives(capacities)) > 0
      && Allocation(capacities, target, rank)[k] >= (target * capacities[k]) / Total(Positives(capacities))
  {
    var sizes := Positives(capacities);
    var served := Schedule(sizes, Share(sizes, 1), rank, target);
    ScheduleGreedy(sizes, Share(sizes, 1), rank, target);
    GreedyWithin(sizes, Share(sizes, 1), rank, served);
    OthersGetNothing(capacities, multiset(served));
    hide Schedule, Greedy, Share;
    assert k in multiset(served) ==> k in sizes && multiset(served)[k] <= sizes[k];
    if capacities[k] > 0 {
      LowerQuota(sizes, rank, served, k);
    }
  }

  lemma {:induction false} OthersGetNothing<K(!new)>(capacities: map<K, int>, served: multiset<K>)
    requires Within(Positives(capacities), served)
    ensures Sum(map k | k in capacities :: served[k]) == Sum(Counts(Positives(capacities), served))
    decreases |capacities|
  {
    var all: map<K, int> := map k | k in capacities :: served[k];
    var some := Counts(Positives(capacities), served);
    SumPadded(all, some);
  }

  lemma {:induction false} SumPadded<K(!new)>(all: map<K, int>, some: map<K, int>)
    requires some.Keys <= all.Keys && forall k :: k in all ==> all[k] == if k in some then some[k] else 0
    ensures Sum(all) == Sum(some)
    decreases |all|
  {
    if all == map[] {
      assert some == map[];
    } else {
      var k :| k in all;
      SumSplit(all, k);
      if k in some {
        SumSplit(some, k);
        SumPadded(all - {k}, some - {k});
      } else {
        SumPadded(all - {k}, some);
      }
    }
  }

  /** A larger target never takes a row away from a stratum. */
  lemma AllocationNested<K(!new)>(capacities: map<K, int>, small: nat, large: nat, rank: K -> nat, k: K)
    requires Injective(rank) && k in capacities && small <= large
    ensures Allocation(capacities, small, rank)[k] <= Allocation(capacities, large, rank)[k]
  {
    var sizes := Positives(capacities);
    var a, b := Schedule(sizes, Share(sizes, 1), rank, small), Schedule(sizes, Share(sizes, 1), rank, large);
    ScheduleNested(sizes, Share(sizes, 1), rank, small, large);
    assert a == b[..|a|];
    CountsGrow(b, |a|, k);
  }

  // ----- select_stratified_rows -----

  /** `hasCoordinates`: the table has both a `lat` and a `lon` column. */
  datatype Table = Table(hasCoordinates: bool, rows: seq<Row>)

  /** Rows of a cell sort by sentence rank, then position. */
  function RankKey(rows: seq<Row>, ranks: Ranks): nat -> Key {
    (i: nat) => Key(if i < |rows| then ranks.sentence(rows[i].sentenceId) else 0, i, 0)
  }

  function IndexKey(): nat -> Key {
    (i: nat) => Key(i, 0, 0)
  }

  ghost function CellShare(rows: seq<Row>, target: nat, ranks: Ranks): map<Cell, nat>
    requires CollisionFree(ranks)
  {
    Allocation(StratumSizes(rows), Min(target, |Eligible(rows)|), ranks.cell)
  }

  /** A cell's best-ranked rows, as many as its share. */
  ghost function CellPicks(rows: seq<Row>, target: nat, ranks: Ranks, c: Cell): set<nat>
    requires CollisionFree(ranks)
  {
    Best(Stratum(rows, c), if c in CellShare(rows, target, ranks) then CellShare(rows, target, ranks)[c] else 0,
      RankKey(rows, ranks))
  }

  ghost function Picks(rows: seq<Row>, target: nat, ranks: Ranks): set<nat>
    requires CollisionFree(ranks)
  {
    set g | g in Eligible(rows) && g in CellPicks(rows, target, ranks, rows[g].coordinates.cell)
  }

  // ----- Counting rows cell by cell -----

  ghost function InCells(rows: seq<Row>, s: set<nat>): map<Cell, int> {
    map c | c in StratumSizes(rows) :: |s * Stratum(rows, c)|
  }

  /** Every located row lies in exactly one cell. */
  lemma {:induction false} CountByCell(rows: seq<Row>, s: set<nat>)
    requires s <= Eligible(rows)
    ensures Sum(InCells(rows, s)) == |s|
    decreases |s|
  {
    if s == {} {
      SumZero(InCells(rows, s));
    } else {
      var g :| g in s;
      var c := rows[g].coordinates.cell;
      SizesAreCounts(rows, c);
      assert g in Stratum(rows, c);
      CountByCell(rows, s - {g});
      forall d { OneRow(rows, s, g, d); }
      SumIncrement(InCells(rows, s), InCells(rows, s - {g}), c);
    }
  }

  lemma SumIncrement<K(!new)>(a: map<K, int>, b: map<K, int>, c: K)
    requires a.Keys == b.Keys && c in a
    requires forall k :: k in a ==> a[k] == b[k] + if k == c then 1 else 0
    ensures Sum(a) == Sum(b) + 1
  {
    assert a == b[c := b[c] + 1];
    SumUpdate(b, c, b[c] + 1);
  }

  lemma OneRow(rows: seq<Row>, s: set<nat>, g: nat, c: Cell)
    requires g in s && g < |rows| && Located(rows[g])
    ensures |s * Stratum(rows, c)| == |(s - {g}) * Stratum(rows, c)| + if c == rows[g].coordinates.cell then 1 else 0
  {
    if c == rows[g].coordinates.cell {
      assert s * Stratum(rows, c) == (s - {g}) * Stratum(rows, c) + {g};
    } else {
      assert s * Stratum(rows, c) == (s - {g}) * Stratum(rows, c);
    }
  }

  lemma TotalIsEligible(rows: seq<Row>)
    ensures Sum(StratumSizes(rows)) == |Eligible(rows)|
    ensures Positives(StratumSizes(rows)) == StratumSizes(rows)
  {
    CountByCell(rows, Eligible(rows));
    forall c | c in StratumSizes(rows) ensures InCells(rows, Eligible(rows))[c] == StratumSizes(rows)[c] {
      SizesAreCounts(rows, c);
      assert Eligible(rows) * Stratum(rows, c) == Stratum(rows, c);
    }
    assert InCells(rows, Eligible(rows)) == StratumSizes(rows);
  }

  lemma RankKeyDistinguishes(rows: seq<Row>, ranks: Ranks, s: set<nat>)
    ensures Distinguishes(RankKey(rows, ranks), s)
  {
  }

  /** What is picked of one cell, and how much. */
  lemma PicksOfCell(rows: seq<Row>, target: nat, ranks: Ranks, c: Cell)
    requires CollisionFree(ranks) && c in StratumSizes(rows)
    ensures c in CellShare(rows, target, ranks) && CellShare(rows, target, ranks)[c] <= StratumSizes(rows)[c]
    ensures Picks(rows, target, ranks) * Stratum(rows, c) == CellPicks(rows, target, ranks, c)
    ensures IsBest(CellPicks(rows, target, ranks, c), Stratum(rows, c), CellShare(rows, target, ranks)[c], RankKey(rows, ranks))
    ensures |CellPicks(rows, target, ranks, c)| == CellShare(rows, target, ranks)[c]
  {
    hide Allocation, StratumSizes, Picks, Eligible, Stratum;
    TotalIsEligible(rows);
    SizesAreCounts(rows, c);
    AllocationQuota(StratumSizes(rows), Min(target, |Eligible(rows)|), ranks.cell, c);
    PicksInCell(rows, target, ranks, c);
  }

  lemma PicksInCell(rows: seq<Row>, target: nat, ranks: Ranks, c: Cell)
    requires CollisionFree(ranks)
    ensures Picks(rows, target, ranks) * Stratum(rows, c) == CellPicks(rows, target, ranks, c)
  {
    hide CellShare, Best;
    var picks := CellPicks(rows, target, ranks, c);
    assert picks <= Stratum(rows, c);
    forall g ensures g in Picks(rows, target, ranks) && g in Stratum(rows, c) <==> g in picks {
    }
  }

  /** Exactly `min(target, eligible)` rows are picked, and every cell gets at least its
      share of them rounded down. */
  lemma PicksQuota(rows: seq<Row>, target: nat, ranks: Ranks)
    requires CollisionFree(ranks)
    ensures Picks(rows, target, ranks) <= Eligible(rows)
    ensures |Picks(rows, target, ranks)| == Min(target, |Eligible(rows)|)
    ensures forall c :: c in StratumSizes(rows) ==>
      && |Eligible(rows)| > 0
      && |Picks(rows, target, ranks) * Stratum(rows, c)| <= |Stratum(rows, c)|
      && |Picks(rows, target, ranks) * Stratum(rows, c)|
        >= (Min(target, |Eligible(rows)|) * |Stratum(rows, c)|) / |Eligible(rows)|
  {
    var k := Min(target, |Eligible(rows)|);
    var sizes := StratumSizes(rows);
    TotalIsEligible(rows);
    CountByCell(rows, Picks(rows, target, ranks));
    forall c | c in sizes
      ensures InCells(rows, Picks(rows, target, ranks))[c] == CellShare(rows, target, ranks)[c]
      ensures |Eligible(rows)| > 0 && |Picks(rows, target, ranks) * Stratum(rows, c)| <= |Stratum(rows, c)|
      ensures |Picks(rows, target, ranks) * Stratum(rows, c)| >= (k * |Stratum(rows, c)|) / |Eligible(rows)|
    {
      CellQuota(rows, target, ranks, c);
    }
    SameShares(InCells(rows, Picks(rows, target, ranks)), CellShare(rows, target, ranks));
    SharesTotal(rows, target, ranks);
  }

  lemma SameShares(counts: map<Cell, int>, shares: map<Cell, nat>)
    requires counts.Keys == shares.Keys && forall c :: c in counts ==> counts[c] == shares[c]
    ensures Sum(counts) == Sum(shares)
  {
    assert counts == shares;
  }

  lemma SharesTotal(rows: seq<Row>, target: nat, ranks: Ranks)
    requires CollisionFree(ranks)
    ensures Sum(CellShare(rows, target, ranks)) == Min(target, |Eligible(rows)|)
  {
    TotalIsEligible(rows);
    if StratumSizes(rows) == map[] {
      SumZero(StratumSizes(rows));
      SumZero(CellShare(rows, target, ranks));
    } else {
      var c :| c in StratumSizes(rows);
      AllocationQuota(StratumSizes(rows), Min(target, |Eligible(rows)|), ranks.cell, c);
    }
  }

  lemma CellQuota(rows: seq<Row>, target: nat, ranks: Ranks, c: Cell)
    requires CollisionFree(ranks) && c in StratumSizes(rows)
    ensures c in CellShare(rows, target, ranks)
    ensures InCells(rows, Picks(rows, target, ranks))[c] == CellShare(rows, target, ranks)[c] <= |Stratum(rows, c)|
    ensures |Eligible(rows)| > 0
    ensures CellShare(rows, target, ranks)[c] >= (Min(target, |Eligible(rows)|) * |Stratum(rows, c)|) / |Eligible(rows)|
  {
    TotalIsEligible(rows);
    PicksOfCell(rows, target, ranks, c);
    SizesAreCounts(rows, c);
    hide Picks, CellPicks, Eligible;
    AllocationQuota(StratumSizes(rows), Min(target, |Eligible(rows)|), ranks.cell, c);
  }

  /** The selected rows only grow with the target. */
  lemma PicksNested(rows: seq<Row>, small: nat, large: nat, ranks: Ranks)
    requires CollisionFree(ranks) && small <= large
    ensures Picks(rows, small, ranks) <= Picks(rows, large, ranks)
  {
    forall g | g in Picks(rows, small, ranks) ensures g in Picks(rows, large, ranks) {
      var c := rows[g].coordinates.cell;
      SizesAreCounts(rows, c);
      assert g in Stratum(rows, c);
      CellPicksNested(rows, small, large, ranks, c);
    }
  }

  lemma CellPicksNested(rows: seq<Row>, small: nat, large: nat, ranks: Ranks, c: Cell)
    requires CollisionFree(ranks) && small <= large && c in StratumSizes(rows)
    ensures CellPicks(rows, small, ranks, c) <= CellPicks(rows, large, ranks, c)
  {
    var n := |Eligible(rows)|;
    AllocationNested(StratumSizes(rows), Min(small, n), Min(large, n), ranks.cell, c);
    BestMonotone(Stratum(rows, c), CellShare(rows, small, ranks)[c], CellShare(rows, large, ranks)[c], RankKey(rows, ranks));
  }

  /** Of one cell, the picked rows have smaller sentence ranks than all others. */
  lemma PicksBestRanked(rows: seq<Row>, target: nat, ranks: Ranks, g: nat, h: nat)
    requires CollisionFree(ranks) && DistinctIds(rows)
    requires g in Picks(rows, target, ranks) && h in Eligible(rows) && h !in Picks(rows, target, ranks)
    ensures g < |rows| && (rows[g].coordinates == rows[h].coordinates ==>
      ranks.sentence(rows[g].sentenceId) < ranks.sentence(rows[h].sentenceId))
  {
    if rows[g].coordinates == rows[h].coordinates {
      var c := rows[g].coordinates.cell;
      assert g in Stratum(rows, c) && h in Stratum(rows, c);
      SizesAreCounts(rows, c);
      PicksOfCell(rows, target, ranks, c);
      assert Ranking.Less(RankKey(rows, ranks)(g), RankKey(rows, ranks)(h));
      assert rows[if g < h then g else h].sentenceId != rows[if g < h then h else g].sentenceId;
    }
  }

  // ----- The selection -----

  ghost predicate NoneInvalid(rows: seq<Row>) {
    forall i :: 0 <= i < |rows| ==> !rows[i].coordinates.Invalid?
  }

  /** The picked rows in table order. */
  ghost function InTableOrder(rows: seq<Row>, picks: set<nat>): seq<Row>
    requires picks <= Eligible(rows)
  {
    var at := Sort(picks, IndexKey());
    assert forall i :: 0 <= i < |at| ==> at[i] in Elements(at);
    RowsAt(rows, at)
  }

  /** `at` lists the positions `picks` from the top of the table to its end. */
  ghost predicate Downwards(at: seq<nat>, picks: set<nat>) {
    (forall g :: g in at <==> g in picks) && forall i, j :: 0 <= i < j < |at| ==> at[i] < at[j]
  }

  lemma TableOrder(rows: seq<Row>, picks: set<nat>) returns (at: seq<nat>)
    requires picks <= Eligible(rows)
    ensures Downwards(at, picks) && |at| == |InTableOrder(rows, picks)| == |picks|
    ensures forall i :: 0 <= i < |at| ==> at[i] < |rows| && InTableOrder(rows, picks)[i] == rows[at[i]]
  {
    SortedDownwards(picks);
    at := Sort(picks, IndexKey());
    hide Sort, Downwards, Eligible;
    assert forall i :: 0 <= i < |at| ==> at[i] in Elements(at);
  }

  lemma SortedDownwards(picks: set<nat>)
    ensures Downwards(Sort(picks, IndexKey()), picks)
  {
    var at := Sort(picks, IndexKey());
    assert forall g :: g in at <==> g in Elements(at);
    forall i, j | 0 <= i < j < |at| ensures at[i] < at[j] {
      assert Ranking.Less(IndexKey()(at[i]), IndexKey()(at[j]));
    }
  }

  lemma EligibleStep(rows: seq<Row>, i: nat, eligible: seq<nat>)
    requires i < |rows| && Ascending(eligible, IndexKey()) && Elements(eligible) == Eligible(rows[..i])
    ensures Located(rows[i]) ==>
      Ascending(eligible + [i], IndexKey()) && Elements(eligible + [i]) == Eligible(rows[..i + 1])
    ensures !Located(rows[i]) ==> Elements(eligible) == Eligible(rows[..i + 1])
  {
    assert forall k :: 0 <= k < |eligible| ==> eligible[k] in Elements(eligible);
    assert Elements(eligible + [i]) == Elements(eligible) + {i};
    assert forall k :: 0 <= k < i ==> rows[..i + 1][k] == rows[..i][k];
    assert Eligible(rows[..i + 1]) == Eligible(rows[..i]) + if Located(rows[i]) then {i} else {};
  }

  /** The coordinate loop: group the located rows, refuse an invalid coordinate. */
  method ScanCoordinates(rows: seq<Row>) returns (r: Result<(map<Cell, seq<nat>>, seq<nat>)>)
    ensures r.Ok? <==> NoneInvalid(rows)
    ensures r.Ok? ==> V2Sampling.GroupsMembers(r.value.0, V2Sampling.StrataOf(rows))
    ensures r.Ok? ==> Ascending(r.value.1, IndexKey()) && Elements(r.value.1) == Eligible(rows)
  {
    hide V2Sampling.GroupsMembers, V2Sampling.StrataOf, Eligible, Ascending, Elements;
    var groups: map<Cell, seq<nat>> := map[];
    var eligible: seq<nat> := [];
    NothingScanned();
    for i := 0 to |rows|
      invariant forall k :: 0 <= k < i ==> !rows[k].coordinates.Invalid?
      invariant V2Sampling.GroupsMembers(groups, V2Sampling.StrataOf(rows[..i]))
      invariant Ascending(eligible, IndexKey()) && Elements(eligible) == Eligible(rows[..i])
    {
      if rows[i].coordinates.Invalid? {
        return Err("coordinate values are invalid");
      }
      V2Sampling.SeeRow(rows, i, groups);
      EligibleStep(rows, i, eligible);
      if Located(rows[i]) {
        groups := V2Sampling.Append(groups, rows[i].coordinates.cell, i);
        eligible := eligible + [i];
      }
    }
    assert rows[..|rows|] == rows;
    return Ok((groups, eligible));
  }

  lemma NothingScanned()
    ensures V2Sampling.GroupsMembers(map[], V2Sampling.StrataOf([]))
    ensures Ascending<nat>([], IndexKey()) && Elements<nat>([]) == Eligible([])
  {
  }

  function Sizes(groups: map<Cell, seq<nat>>): map<Cell, int> {
    map c | c in groups :: |groups[c]|
  }

  lemma GroupSizes(rows: seq<Row>, groups: map<Cell, seq<nat>>)
    requires V2Sampling.GroupsMembers(groups, V2Sampling.StrataOf(rows))
    ensures Sizes(groups) == StratumSizes(rows)
  {
    hide V2Sampling.GroupsMembers, StratumSizes, Stratum;
    forall c
      ensures c in groups <==> c in StratumSizes(rows)
      ensures c in groups ==> |groups[c]| == StratumSizes(rows)[c]
    {
      V2Sampling.GroupIsStratum(rows, groups, c);
      SizesAreCounts(rows, c);
      if c in groups { DistinctSize(groups[c]); }
    }
  }

  /** The picks that lie in the given cells. */
  ghost function PicksIn(rows: seq<Row>, target: nat, ranks: Ranks, cells: set<Cell>): set<nat>
    requires CollisionFree(ranks)
  {
    set g | g in Picks(rows, target, ranks) && rows[g].coordinates.cell in cells
  }

  /** `selected.extend(ranked[:allocations[key]])` for one more cell. */
  lemma ExtendCell(
    rows: seq<Row>, target: nat, ranks: Ranks, cells: set<Cell>, c: Cell, selected: seq<nat>, ranked: seq<nat>)
    requires CollisionFree(ranks) && c in StratumSizes(rows) && c !in cells
    requires Distinct(selected) && Elements(selected) == PicksIn(rows, target, ranks, cells)
    requires Distinguishes(RankKey(rows, ranks), Stratum(rows, c))
    requires ranked == Sort(Stratum(rows, c), RankKey(rows, ranks))
    ensures c in CellShare(rows, target, ranks)
    ensures var taken := ranked[..Min(CellShare(rows, target, ranks)[c], |ranked|)];
      Distinct(selected + taken) && Elements(selected + taken) == PicksIn(rows, target, ranks, cells + {c})
  {
    hide StratumSizes, Picks, CellShare, Sort;
    PicksOfCell(rows, target, ranks, c);
    var taken := ranked[..Min(CellShare(rows, target, ranks)[c], |ranked|)];
    assert Elements(taken) == CellPicks(rows, target, ranks, c);
    NewPicks(rows, target, ranks, cells, c);
    AppendTaken(selected, taken, RankKey(rows, ranks));
  }

  lemma NewPicks(rows: seq<Row>, target: nat, ranks: Ranks, cells: set<Cell>, c: Cell)
    requires CollisionFree(ranks) && c !in cells
    requires Picks(rows, target, ranks) * Stratum(rows, c) == CellPicks(rows, target, ranks, c)
    ensures PicksIn(rows, target, ranks, cells + {c})
      == PicksIn(rows, target, ranks, cells) + CellPicks(rows, target, ranks, c)
    ensures PicksIn(rows, target, ranks, cells) !! CellPicks(rows, target, ranks, c)
  {
    hide CellPicks;
  }

  lemma AppendTaken(a: seq<nat>, b: seq<nat>, key: nat -> Key)
    requires Distinct(a) && Ascending(b, key) && Elements(a) !! Elements(b)
    ensures Distinct(a + b) && Elements(a + b) == Elements(a) + Elements(b)
  {
    forall i, j | 0 <= i < j < |a + b| ensures (a + b)[i] != (a + b)[j] {
      if i < |a| <= j {
        assert a[i] in Elements(a) && b[j - |a|] in Elements(b);
      } else if i >= |a| {
        assert Ranking.Less(key(b[i - |a|]), key(b[j - |a|]));
      }
    }
    forall x ensures x in Elements(a + b) <==> x in Elements(a) + Elements(b) {
      assert x in a + b <==> x in a || x in b;
    }
  }

  /** The group loop: the best-ranked rows of every cell, as many as shares. */
  method TakeShares(rows: seq<Row>, groups: map<Cell, seq<nat>>, shares: map<Cell, nat>, ghost target: nat, ranks: Ranks)
    returns (selected: seq<nat>)
    requires CollisionFree(ranks) && V2Sampling.GroupsMembers(groups, V2Sampling.StrataOf(rows))
    requires shares == CellShare(rows, target, ranks)
    ensures Distinct(selected) && Elements(selected) == Picks(rows, target, ranks)
  {
    hide V2Sampling.GroupsMembers, StratumSizes, Stratum, CellShare, Picks, Distinct, Elements, PicksIn, Distinguishes, Ascending;
    selected := [];
    NoPicks(rows, target, ranks);
    var left := groups.Keys;
    ghost var done: set<Cell> := {};
    while left != {}
      invariant left <= groups.Keys && done == groups.Keys - left
      invariant Distinct(selected) && Elements(selected) == PicksIn(rows, target, ranks, done)
      decreases |left|
    {
      var c :| c in left;
      V2Sampling.GroupIsStratum(rows, groups, c);
      RankKeyDistinguishes(rows, ranks, Stratum(rows, c));
      var ranked := SortList(groups[c], RankKey(rows, ranks));
      ExtendCell(rows, target, ranks, done, c, selected, ranked);
      selected := selected + ranked[..Min(shares[c], |ranked|)];
      left := left - {c};
      done := done + {c};
    }
    assert done == groups.Keys;
    AllCells(rows, groups, target, ranks);
  }

  lemma NoPicks(rows: seq<Row>, target: nat, ranks: Ranks)
    requires CollisionFree(ranks)
    ensures Distinct<nat>([]) && Elements<nat>([]) == PicksIn(rows, target, ranks, {})
  {
  }

  lemma AllCells(rows: seq<Row>, groups: map<Cell, seq<nat>>, target: nat, ranks: Ranks)
    requires CollisionFree(ranks) && V2Sampling.GroupsMembers(groups, V2Sampling.StrataOf(rows))
    ensures PicksIn(rows, target, ranks, groups.Keys) == Picks(rows, target, ranks)
  {
    hide V2Sampling.GroupsMembers, StratumSizes, CellPicks;
    forall g | g in Picks(rows, target, ranks) ensures rows[g].coordinates.cell in groups {
      var c := rows[g].coordinates.cell;
      assert g in Stratum(rows, c);
      SizesAreCounts(rows, c);
      V2Sampling.GroupIsStratum(rows, groups, c);
    }
  }

  lemma AllPicked(rows: seq<Row>, target: nat, ranks: Ranks)
    requires CollisionFree(ranks) && |rows| <= target
    ensures Picks(rows, target, ranks) == Eligible(rows)
  {
    hide Picks, StratumSizes;
    PicksQuota(rows, target, ranks);
    EligibleSize(rows);
    SubsetSize(Picks(rows, target, ranks), Eligible(rows));
  }

  lemma {:induction false} EligibleSize(rows: seq<Row>)
    ensures |Eligible(rows)| <= |rows|
  {
    if rows == [] {
      assert Eligible(rows) == {};
    } else {
      var n := |rows| - 1;
      EligibleSize(rows[..n]);
      assert Eligible(rows) == Eligible(rows[..n]) + if Located(rows[n]) then {n} else {};
    }
  }

  /** `select_stratified_rows`. */
  method SelectStratified(table: Table, target: int, ranks: Ranks) returns (r: Result<seq<Row>>)
    requires CollisionFree(ranks)
    ensures r.Ok? <==>
      && target >= 1 && DistinctIds(table.rows)
      && (if table.hasCoordinates then NoneInvalid(table.rows) else |table.rows| <= target)
    ensures r.Ok? && !table.hasCoordinates ==> r.value == table.rows
    ensures r.Ok? && table.hasCoordinates ==>
      && Picks(table.rows, target, ranks) <= Eligible(table.rows)
      && r.value == InTableOrder(table.rows, Picks(table.rows, target, ranks))
  {
    hide DistinctIds, NoneInvalid, Picks, Eligible, StratumSizes, Elements, Ascending, V2Sampling.GroupsMembers;
    if target < 1 { return Err("sampling target must be a positive integer"); }
    var rows := table.rows;
    var distinct := V2Sampling.HasDistinctIds(rows);
    if !distinct { return Err("sampling input contains duplicate sentence IDs"); }
    if !table.hasCoordinates {
      if |rows| <= target { return Ok(rows); }
      return Err("sampling input is missing required columns");
    }
    var scanned := ScanCoordinates(rows);
    if scanned.Err? { return Err(scanned.message); }
    var (groups, eligible) := scanned.value;
    PicksQuota(rows, target, ranks);
    var at;
    if |rows| <= target {
      AllPicked(rows, target, ranks);
      SortUnique(eligible, Sort(Eligible(rows), IndexKey()), IndexKey());
      at := eligible;
    } else {
      GroupSizes(rows, groups);
      AscendingSize(eligible, IndexKey());
      TotalIsEligible(rows);
      var shares := Allocate(Sizes(groups), Min(target, |eligible|), ranks.cell);
      var selected := TakeShares(rows, groups, shares.value, target, ranks);
      at := SortList(selected, IndexKey());
    }
    PicksInRange(rows, target, ranks, at);
    r := Ok(seq(|at|, i requires 0 <= i < |at| => rows[at[i]]));
  }

  lemma PicksInRange(rows: seq<Row>, target: nat, ranks: Ranks, at: seq<nat>)
    requires CollisionFree(ranks) && Elements(at) == Picks(rows, target, ranks)
    ensures forall i :: 0 <= i < |at| ==> at[i] < |rows|
  {
    assert forall i :: 0 <= i < |at| ==> at[i] in Elements(at);
  }
}
