/** The meaning of the V2 selection: which rows, in which order. */
module Selection {
  import opened Ranking
  import opened FairQueue
  import opened Apportionment
  import opened Queues
  import opened SentenceTable
  import opened Sums

  // ----- Polygon order -----

  function PolygonKey(ranks: Ranks): string -> Key {
    (p: string) => Key(ranks.polygon(p), 0, 0)
  }

  lemma PolygonKeyDistinguishes(ranks: Ranks, s: set<string>)
    requires CollisionFree(ranks)
    ensures Distinguishes(PolygonKey(ranks), s)
  {
  }

  ghost function LargePolygons(meta: map<string, Metadata>): set<string> {
    set p | p in meta && meta[p].bucket == Large
  }

  ghost function CellPolygons(meta: map<string, Metadata>, c: Cell): set<string> {
    set p | p in meta && meta[p].bucket != Large && meta[p].cell == c
  }

  ghost function PolygonCells(meta: map<string, Metadata>): set<Cell> {
    set p | p in meta && meta[p].bucket != Large :: meta[p].cell
  }

  ghost function SortedPolygons(s: set<string>, ranks: Ranks): seq<string>
    requires CollisionFree(ranks)
  {
    PolygonKeyDistinguishes(ranks, s);
    Sort(s, PolygonKey(ranks))
  }

  ghost function PolygonQueues(meta: map<string, Metadata>, ranks: Ranks): map<Cell, seq<string>>
    requires CollisionFree(ranks)
  {
    map c | c in PolygonCells(meta) :: SortedPolygons(CellPolygons(meta, c), ranks)
  }

  /** Lengths of non-empty queues. */
  ghost function Lengths<K(!new), V>(queues: map<K, seq<V>>): Strata<K>
    requires forall k :: k in queues ==> queues[k] != []
  {
    map k | k in queues :: |queues[k]|
  }

  ghost function FullSchedule(sizes: Strata<Cell>, ranks: Ranks): seq<Cell>
    requires CollisionFree(ranks)
  {
    SumNonNegative(sizes);
    Schedule(sizes, Share(sizes, 0), ranks.cell, Total(sizes))
  }

  lemma FullScheduleFits<V>(queues: map<Cell, seq<V>>, ranks: Ranks)
    requires CollisionFree(ranks)
    requires forall k :: k in queues ==> queues[k] != []
    ensures Fits(FullSchedule(Lengths(queues), ranks), queues)
    ensures forall k :: k in queues ==>
      multiset(FullSchedule(Lengths(queues), ranks))[k] == |queues[k]|
  {
    var sizes := Lengths(queues);
    var s := FullSchedule(sizes, ranks);
    SumNonNegative(sizes);
    ScheduleGreedy(sizes, Share(sizes, 0), ranks.cell, Total(sizes));
    GreedyWithin(sizes, Share(sizes, 0), ranks.cell, s);
    forall k | k in queues ensures multiset(s)[k] == |queues[k]| {
      FullScheduleServesAll(sizes, Share(sizes, 0), ranks.cell, s, k);
    }
  }

  lemma PolygonQueuesNonEmpty(meta: map<string, Metadata>, ranks: Ranks)
    requires CollisionFree(ranks)
    ensures forall c :: c in PolygonQueues(meta, ranks) ==> PolygonQueues(meta, ranks)[c] != []
  {
    forall c | c in PolygonCells(meta) ensures CellPolygons(meta, c) != {} {
      var p :| p in meta && meta[p].bucket != Large && meta[p].cell == c;
      assert p in CellPolygons(meta, c);
    }
  }

  ghost function MergedOrder(meta: map<string, Metadata>, ranks: Ranks): seq<string>
    requires CollisionFree(ranks)
  {
    var queues := PolygonQueues(meta, ranks);
    PolygonQueuesNonEmpty(meta, ranks);
    FullScheduleFits(queues, ranks);
    Merge(FullSchedule(Lengths(queues), ranks), queues)
  }

  /** All large polygons by rank, then the others merged proportionally over cells. */
  ghost function OrderedPolygons(meta: map<string, Metadata>, ranks: Ranks): seq<string>
    requires CollisionFree(ranks)
  {
    SortedPolygons(LargePolygons(meta), ranks) + MergedOrder(meta, ranks)
  }

  /** `{value: index for index, value in enumerate(ordered)}`. */
  ghost function Positions<T>(s: seq<T>): map<T, nat> {
    if s == [] then map[] else Positions(s[..|s| - 1])[s[|s| - 1] := |s| - 1]
  }

  lemma {:induction false} PositionsKeys<T>(s: seq<T>)
    ensures forall x :: x in Positions(s) <==> x in s
  {
    if s != [] {
      PositionsKeys(s[..|s| - 1]);
      assert s == s[..|s| - 1] + [s[|s| - 1]];
    }
  }

  // ----- Row order -----

  /** Rows of a cell sort by polygon order, then sentence rank, then position. */
  function RowKey(rows: seq<Row>, order: map<string, nat>, ranks: Ranks): nat -> Key {
    (i: nat) =>
      if i < |rows| && rows[i].polygonId in order
      then Key(order[rows[i].polygonId], ranks.sentence(rows[i].sentenceId), i)
      else Key(0, 0, i)
  }

  lemma RowKeyDistinguishes(rows: seq<Row>, order: map<string, nat>, ranks: Ranks, s: set<nat>)
    ensures Distinguishes(RowKey(rows, order, ranks), s)
  {
  }

  ghost function SortedRows(s: set<nat>, rows: seq<Row>, order: map<string, nat>, ranks: Ranks): seq<nat> {
    RowKeyDistinguishes(rows, order, ranks, s);
    Sort(s, RowKey(rows, order, ranks))
  }

  ghost function RowQueues(rows: seq<Row>, order: map<string, nat>, ranks: Ranks): map<Cell, seq<nat>> {
    map c | c in StratumSizes(rows) :: SortedRows(Stratum(rows, c), rows, order, ranks)
  }

  lemma RowQueueLengths(rows: seq<Row>, order: map<string, nat>, ranks: Ranks)
    ensures var queues := RowQueues(rows, order, ranks);
      && (forall c :: c in queues ==> queues[c] != [])
      && Lengths(queues) == StratumSizes(rows)
  {
    hide Stratum, StratumSizes, SortedRows;
    var queues := RowQueues(rows, order, ranks);
    forall c | c in queues ensures |queues[c]| == StratumSizes(rows)[c] {
      SizesAreCounts(rows, c);
      SortedRowsSize(Stratum(rows, c), rows, order, ranks);
    }
  }

  lemma SortedRowsSize(s: set<nat>, rows: seq<Row>, order: map<string, nat>, ranks: Ranks)
    ensures |SortedRows(s, rows, order, ranks)| == |s|
  {
  }

  ghost function OrderedRows(rows: seq<Row>, order: map<string, nat>, ranks: Ranks): seq<nat>
    requires CollisionFree(ranks)
  {
    var queues := RowQueues(rows, order, ranks);
    RowQueueLengths(rows, order, ranks);
    FullScheduleFits(queues, ranks);
    Merge(FullSchedule(StratumSizes(rows), ranks), queues)
  }

  ghost function PolygonOrder(meta: map<string, Metadata>, ranks: Ranks): map<string, nat>
    requires CollisionFree(ranks)
  {
    Positions(OrderedPolygons(meta, ranks))
  }

  /** The whole candidate order of an acceptable table. */
  ghost function CandidateOrder(rows: seq<Row>, ranks: Ranks): seq<nat>
    requires CollisionFree(ranks) && AllAccepted(rows)
  {
    OrderedRows(rows, PolygonOrder(Polygons(rows), ranks), ranks)
  }

  /** The V2 selection: positions of the first `target` rows of the candidate order. */
  ghost function Select(rows: seq<Row>, target: nat, ranks: Ranks): seq<nat>
    requires CollisionFree(ranks) && AllAccepted(rows)
  {
    CandidateOrder(rows, ranks)[..Min(target, |CandidateOrder(rows, ranks)|)]
  }

  ghost function RowsAt(rows: seq<Row>, at: seq<nat>): (r: seq<Row>)
    requires forall i :: 0 <= i < |at| ==> at[i] < |rows|
    ensures |r| == |at| && forall i :: 0 <= i < |at| ==> r[i] == rows[at[i]]
  {
    seq(|at|, i requires 0 <= i < |at| => rows[at[i]])
  }

  // ----- The orders are permutations -----

  lemma FullMergeMembers<V>(queues: map<Cell, seq<V>>, ranks: Ranks, v: V)
    requires CollisionFree(ranks)
    requires forall k :: k in queues ==> queues[k] != []
    ensures Fits(FullSchedule(Lengths(queues), ranks), queues)
    ensures v in Merge(FullSchedule(Lengths(queues), ranks), queues) <==>
      exists k :: k in queues && v in queues[k]
  {
    FullScheduleFits(queues, ranks);
    var schedule := FullSchedule(Lengths(queues), ranks);
    MergeMembers(schedule, queues, v);
    forall k | k in queues
      ensures k in multiset(schedule) && (TakenOf(queues, multiset(schedule), k, v) <==> v in queues[k])
    {
      assert queues[k][..multiset(schedule)[k]] == queues[k];
    }
  }

  lemma FullMergeProjects<V>(queues: map<Cell, seq<V>>, ranks: Ranks, c: Cell)
    requires CollisionFree(ranks) && c in queues
    requires forall k :: k in queues ==> queues[k] != []
    ensures Fits(FullSchedule(Lengths(queues), ranks), queues)
    ensures var schedule := FullSchedule(Lengths(queues), ranks);
      Project(schedule, Merge(schedule, queues), c) == queues[c]
  {
    FullScheduleFits(queues, ranks);
    MergeKeepsOrder(FullSchedule(Lengths(queues), ranks), queues, c);
    assert queues[c][..|queues[c]|] == queues[c];
  }

  lemma SortedPolygonsMembers(s: set<string>, ranks: Ranks, p: string)
    requires CollisionFree(ranks)
    ensures p in SortedPolygons(s, ranks) <==> p in s
  {
    assert p in SortedPolygons(s, ranks) <==> p in Elements(SortedPolygons(s, ranks));
  }

  lemma MergedPolygons(meta: map<string, Metadata>, ranks: Ranks, p: string)
    requires CollisionFree(ranks)
    ensures (exists c :: c in PolygonQueues(meta, ranks) && p in PolygonQueues(meta, ranks)[c])
      <==> p in meta && meta[p].bucket != Large
  {
    var queues := PolygonQueues(meta, ranks);
    if p in meta && meta[p].bucket != Large {
      var c := meta[p].cell;
      SortedPolygonsMembers(CellPolygons(meta, c), ranks, p);
      assert c in PolygonCells(meta);
      assert c in queues && p in queues[c];
    }
    if c :| c in queues && p in queues[c] {
      SortedPolygonsMembers(CellPolygons(meta, c), ranks, p);
    }
  }

  lemma SortedDistinct<T(!new)>(s: set<T>, key: T -> Key)
    requires Distinguishes(key, s)
    ensures Distinct(Sort(s, key))
  {
    var r := Sort(s, key);
    forall i, j | 0 <= i < j < |r| ensures r[i] != r[j] {
      assert Less(key(r[i]), key(r[j]));
    }
  }

  lemma PolygonQueuesDisjoint(meta: map<string, Metadata>, ranks: Ranks)
    requires CollisionFree(ranks)
    ensures Disjoint(PolygonQueues(meta, ranks))
  {
    var queues := PolygonQueues(meta, ranks);
    forall c | c in queues ensures Distinct(queues[c]) {
      PolygonKeyDistinguishes(ranks, CellPolygons(meta, c));
      SortedDistinct(CellPolygons(meta, c), PolygonKey(ranks));
    }
    forall c, i | c in queues && 0 <= i < |queues[c]| ensures queues[c][i] in CellPolygons(meta, c) {
      SortedPolygonsMembers(CellPolygons(meta, c), ranks, queues[c][i]);
    }
  }

  lemma MergedPolygonsDistinct(meta: map<string, Metadata>, ranks: Ranks)
    requires CollisionFree(ranks)
    ensures Distinct(MergedOrder(meta, ranks))
    ensures Distinct(SortedPolygons(LargePolygons(meta), ranks))
  {
    PolygonQueuesNonEmpty(meta, ranks);
    PolygonQueuesDisjoint(meta, ranks);
    FullScheduleFits(PolygonQueues(meta, ranks), ranks);
    MergeDistinct(FullSchedule(Lengths(PolygonQueues(meta, ranks)), ranks), PolygonQueues(meta, ranks));
    PolygonKeyDistinguishes(ranks, LargePolygons(meta));
    SortedDistinct(LargePolygons(meta), PolygonKey(ranks));
  }

  lemma MergedOrderMembers(meta: map<string, Metadata>, ranks: Ranks, p: string)
    requires CollisionFree(ranks)
    ensures p in MergedOrder(meta, ranks) <==> p in meta && meta[p].bucket != Large
    ensures p in SortedPolygons(LargePolygons(meta), ranks) <==> p in meta && meta[p].bucket == Large
  {
    PolygonQueuesNonEmpty(meta, ranks);
    FullMergeMembers(PolygonQueues(meta, ranks), ranks, p);
    SortedPolygonsMembers(LargePolygons(meta), ranks, p);
    MergedPolygons(meta, ranks, p);
  }

  /** The polygon order lists exactly the polygons that have metadata. */
  lemma OrderedPolygonsComplete(meta: map<string, Metadata>, ranks: Ranks, p: string)
    requires CollisionFree(ranks)
    ensures p in OrderedPolygons(meta, ranks) <==> p in meta
  {
    hide MergedOrder, SortedPolygons, LargePolygons;
    MergedOrderMembers(meta, ranks, p);
  }

  /** Every polygon stands once in the order, and every large one before every other. */
  lemma OrderedPolygonsLargeFirst(meta: map<string, Metadata>, ranks: Ranks)
    requires CollisionFree(ranks)
    ensures var order := OrderedPolygons(meta, ranks);
      && Distinct(order)
      && (forall p :: p in order <==> p in meta)
      && forall i, j :: 0 <= i < j < |order| && meta[order[j]].bucket == Large ==> meta[order[i]].bucket == Large
  {
    hide MergedOrder, SortedPolygons, LargePolygons;
    var order := OrderedPolygons(meta, ranks);
    var large := SortedPolygons(LargePolygons(meta), ranks);
    var merged := MergedOrder(meta, ranks);
    MergedPolygonsDistinct(meta, ranks);
    forall p ensures p in order <==> p in meta {
      MergedOrderMembers(meta, ranks, p);
    }
    forall i | 0 <= i < |order|
      ensures order[i] in meta && (meta[order[i]].bucket == Large <==> i < |large|)
    {
      MergedOrderMembers(meta, ranks, order[i]);
      if i < |large| {
        assert order[i] == large[i];
      } else {
        assert order[i] == merged[i - |large|];
      }
    }
    forall i, j | 0 <= i < j < |order| ensures order[i] != order[j] {
      if i >= |large| {
        assert merged[i - |large|] != merged[j - |large|];
      }
    }
  }

  lemma RowQueueMembers(rows: seq<Row>, order: map<string, nat>, ranks: Ranks, i: nat)
    ensures (exists c :: c in RowQueues(rows, order, ranks) && i in RowQueues(rows, order, ranks)[c])
      <==> i in Eligible(rows)
  {
    var queues := RowQueues(rows, order, ranks);
    forall c | c in queues ensures i in queues[c] <==> i in Stratum(rows, c) {
      assert i in queues[c] <==> i in Elements(queues[c]);
    }
    if i in Eligible(rows) {
      var c := rows[i].coordinates.cell;
      assert i in Stratum(rows, c);
      SizesAreCounts(rows, c);
      assert c in queues;
    }
  }

  lemma RowQueuesDisjoint(rows: seq<Row>, order: map<string, nat>, ranks: Ranks)
    ensures Disjoint(RowQueues(rows, order, ranks))
  {
    var queues := RowQueues(rows, order, ranks);
    forall c | c in queues ensures Distinct(queues[c]) {
      RowKeyDistinguishes(rows, order, ranks, Stratum(rows, c));
      SortedDistinct(Stratum(rows, c), RowKey(rows, order, ranks));
    }
    forall c, i | c in queues && 0 <= i < |queues[c]| ensures queues[c][i] in Stratum(rows, c) {
      assert queues[c][i] in Elements(queues[c]);
    }
  }

  lemma OrderedRowsMembers(rows: seq<Row>, order: map<string, nat>, ranks: Ranks, i: nat)
    requires CollisionFree(ranks)
    ensures i in OrderedRows(rows, order, ranks) <==> i in Eligible(rows)
  {
    RowQueueLengths(rows, order, ranks);
    FullMergeMembers(RowQueues(rows, order, ranks), ranks, i);
    RowQueueMembers(rows, order, ranks, i);
  }

  lemma OrderedRowsDistinct(rows: seq<Row>, order: map<string, nat>, ranks: Ranks)
    requires CollisionFree(ranks)
    ensures Distinct(OrderedRows(rows, order, ranks))
  {
    var queues := RowQueues(rows, order, ranks);
    RowQueueLengths(rows, order, ranks);
    FullScheduleFits(queues, ranks);
    RowQueuesDisjoint(rows, order, ranks);
    MergeDistinct(FullSchedule(StratumSizes(rows), ranks), queues);
  }

  lemma ListSize(all: seq<nat>, s: set<nat>)
    requires Distinct(all) && forall i :: i in all <==> i in s
    ensures |all| == |s|
  {
    DistinctSize(all);
    assert Elements(all) == s;
  }

  /** The candidate order lists every row with coordinates once and no other row. */
  lemma CandidateOrderComplete(rows: seq<Row>, ranks: Ranks)
    requires CollisionFree(ranks) && AllAccepted(rows)
    ensures var order := CandidateOrder(rows, ranks);
      && Distinct(order)
      && (forall i :: i in order <==> i in Eligible(rows))
      && |order| == |Eligible(rows)|
  {
    var all := CandidateOrder(rows, ranks);
    OrderedRowsDistinct(rows, PolygonOrder(Polygons(rows), ranks), ranks);
    forall i: nat ensures i in all <==> i in Eligible(rows) {
      OrderedRowsMembers(rows, PolygonOrder(Polygons(rows), ranks), ranks, i);
    }
    ListSize(all, Eligible(rows));
  }

  /** A selection has `min(target, eligible)` rows, and a larger target extends it. */
  lemma SelectNested(rows: seq<Row>, small: nat, large: nat, ranks: Ranks)
    requires CollisionFree(ranks) && AllAccepted(rows) && small <= large
    ensures Select(rows, small, ranks) <= Select(rows, large, ranks)
    ensures |Select(rows, small, ranks)| == Min(small, |Eligible(rows)|)
    ensures forall k :: 0 <= k < |Select(rows, small, ranks)| ==> Select(rows, small, ranks)[k] in Eligible(rows)
    ensures Distinct(Select(rows, small, ranks))
  {
    CandidateOrderComplete(rows, ranks);
  }

  /** Within a cell the candidate order follows polygon order, sentence rank, position. */
  lemma OrderedRowsSortCells(rows: seq<Row>, order: map<string, nat>, ranks: Ranks, c: Cell)
    requires CollisionFree(ranks) && c in StratumSizes(rows)
    ensures |FullSchedule(StratumSizes(rows), ranks)| == |OrderedRows(rows, order, ranks)|
    ensures Project(FullSchedule(StratumSizes(rows), ranks), OrderedRows(rows, order, ranks), c)
      == SortedRows(Stratum(rows, c), rows, order, ranks)
  {
    var queues := RowQueues(rows, order, ranks);
    RowQueueLengths(rows, order, ranks);
    FullMergeProjects(queues, ranks, c);
  }

  lemma SelectInRange(rows: seq<Row>, target: nat, ranks: Ranks)
    requires CollisionFree(ranks) && AllAccepted(rows)
    ensures forall k :: 0 <= k < |Select(rows, target, ranks)| ==> Select(rows, target, ranks)[k] < |rows|
  {
    SelectNested(rows, target, target, ranks);
  }

  /** The selected rows themselves. */
  ghost function SelectedRows(rows: seq<Row>, target: nat, ranks: Ranks): seq<Row>
    requires CollisionFree(ranks) && AllAccepted(rows)
  {
    SelectInRange(rows, target, ranks);
    RowsAt(rows, Select(rows, target, ranks))
  }

  /** The rows selected for a target are the first ones selected for any larger target. */
  lemma SelectedRowsNested(rows: seq<Row>, small: nat, large: nat, ranks: Ranks)
    requires CollisionFree(ranks) && AllAccepted(rows) && small <= large
    ensures SelectedRows(rows, small, ranks) <= SelectedRows(rows, large, ranks)
    ensures |SelectedRows(rows, small, ranks)| == Min(small, |Eligible(rows)|)
  {
    hide Select;
    SelectNested(rows, small, large, ranks);
    SelectInRange(rows, small, ranks);
    SelectInRange(rows, large, ranks);
  }
}
