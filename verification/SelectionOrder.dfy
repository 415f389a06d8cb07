/** What the selection looks like from outside: the order inside a cell, the order of the
    polygons, and how the rows are spread over the cells. */
module SelectionOrder {
  import opened Ranking
  import opened FairQueue
  import opened Apportionment
  import opened Queues
  import opened SentenceTable
  import opened Selection
  import opened Sums

  // ----- Polygons -----

  /** `p` stands before `q` in the polygon order. */
  ghost predicate PolygonBefore(meta: map<string, Metadata>, ranks: Ranks, p: string, q: string)
    requires CollisionFree(ranks)
  {
    exists i, j :: 0 <= i < j < |OrderedPolygons(meta, ranks)|
      && OrderedPolygons(meta, ranks)[i] == p && OrderedPolygons(meta, ranks)[j] == q
  }

  lemma SortedByRank(s: set<string>, ranks: Ranks)
    requires CollisionFree(ranks)
    ensures var r := SortedPolygons(s, ranks);
      forall i, j :: 0 <= i < j < |r| ==> ranks.polygon(r[i]) < ranks.polygon(r[j])
  {
    var r := SortedPolygons(s, ranks);
    forall i, j | 0 <= i < j < |r| ensures ranks.polygon(r[i]) < ranks.polygon(r[j]) {
      assert Less(PolygonKey(ranks)(r[i]), PolygonKey(ranks)(r[j]));
    }
  }

  /** The merged polygons of one cell. */
  lemma MergedByRank(meta: map<string, Metadata>, ranks: Ranks, i: nat, j: nat)
    requires CollisionFree(ranks) && i < j < |MergedOrder(meta, ranks)|
    requires var r := MergedOrder(meta, ranks); r[i] in meta && r[j] in meta && meta[r[i]].cell == meta[r[j]].cell
    ensures var r := MergedOrder(meta, ranks); ranks.polygon(r[i]) < ranks.polygon(r[j])
  {
    var queues := PolygonQueues(meta, ranks);
    PolygonQueuesNonEmpty(meta, ranks);
    FullScheduleFits(queues, ranks);
    var schedule := FullSchedule(Lengths(queues), ranks);
    hide FullSchedule, Lengths, CellPolygons, SortedPolygons, Fits, Merge;
    PolygonFromQueue(meta, ranks, schedule, i);
    PolygonFromQueue(meta, ranks, schedule, j);
    var a, b := MergeSameQueue(schedule, queues, i, j);
    SortedByRank(CellPolygons(meta, schedule[i]), ranks);
  }

  lemma PolygonFromQueue(meta: map<string, Metadata>, ranks: Ranks, schedule: seq<Cell>, i: nat)
    requires CollisionFree(ranks) && Fits(schedule, PolygonQueues(meta, ranks)) && i < |schedule|
    ensures var p := Merge(schedule, PolygonQueues(meta, ranks))[i]; p in meta && meta[p].cell == schedule[i]
  {
    MergeAt(schedule, PolygonQueues(meta, ranks), i);
    var c := schedule[i];
    SortedPolygonsMembers(CellPolygons(meta, c), ranks, Merge(schedule, PolygonQueues(meta, ranks))[i]);
  }

  /** Two polygons that compete for the same places. */
  ghost predicate Rivals(a: Metadata, b: Metadata) {
    if a.bucket == Large then b.bucket == Large else b.bucket != Large && a.cell == b.cell
  }

  lemma PlaceInOrder(meta: map<string, Metadata>, ranks: Ranks, i: nat)
    requires CollisionFree(ranks) && i < |OrderedPolygons(meta, ranks)|
    ensures var order := OrderedPolygons(meta, ranks); var large := SortedPolygons(LargePolygons(meta), ranks);
      && order[i] in meta && (meta[order[i]].bucket == Large <==> i < |large|)
      && order[i] == if i < |large| then large[i] else MergedOrder(meta, ranks)[i - |large|]
  {
    hide MergedOrder, SortedPolygons, LargePolygons;
    MergedOrderMembers(meta, ranks, OrderedPolygons(meta, ranks)[i]);
  }

  /** Large polygons stand by increasing rank, and so do the others of each cell. */
  lemma PolygonsByRank(meta: map<string, Metadata>, ranks: Ranks, i: nat, j: nat)
    requires CollisionFree(ranks) && i < j < |OrderedPolygons(meta, ranks)|
    ensures var order := OrderedPolygons(meta, ranks);
      && order[i] in meta && order[j] in meta
      && (Rivals(meta[order[i]], meta[order[j]]) ==> ranks.polygon(order[i]) < ranks.polygon(order[j]))
  {
    hide MergedOrder, SortedPolygons, LargePolygons, OrderedPolygons;
    PlaceInOrder(meta, ranks, i);
    PlaceInOrder(meta, ranks, j);
    var size := |SortedPolygons(LargePolygons(meta), ranks)|;
    if j < size {
      SortedByRank(LargePolygons(meta), ranks);
    } else if i >= size {
      MergedOrderIs(meta, ranks);
      var p, q := MergedOrder(meta, ranks)[i - size], MergedOrder(meta, ranks)[j - size];
      if meta[p].cell == meta[q].cell {
        MergedByRank(meta, ranks, i - size, j - size);
      }
    }
  }

  lemma MergedOrderIs(meta: map<string, Metadata>, ranks: Ranks)
    requires CollisionFree(ranks)
    ensures |OrderedPolygons(meta, ranks)| == |SortedPolygons(LargePolygons(meta), ranks)| + |MergedOrder(meta, ranks)|
  {
  }

  // ----- Rows of one cell -----

  lemma {:induction false} PositionsAt<T(!new)>(s: seq<T>, x: T)
    requires x in s
    ensures x in Positions(s) && Positions(s)[x] < |s| && s[Positions(s)[x]] == x
  {
    var n := |s| - 1;
    if x != s[n] {
      assert x in s[..n];
      PositionsAt(s[..n], x);
    }
  }

  /** Every merged row comes from the queue of its own cell. */
  lemma RowFromQueue(rows: seq<Row>, order: map<string, nat>, schedule: seq<Cell>, ranks: Ranks, i: nat)
    requires Fits(schedule, RowQueues(rows, order, ranks)) && i < |schedule|
    ensures var g := Merge(schedule, RowQueues(rows, order, ranks))[i];
      g < |rows| && rows[g].coordinates == InCell(schedule[i])
  {
    var queues := RowQueues(rows, order, ranks);
    MergeAt(schedule, queues, i);
    var c := schedule[i];
    assert Merge(schedule, queues)[i] in Elements(SortedRows(Stratum(rows, c), rows, order, ranks));
  }

  lemma QueueAscends(rows: seq<Row>, order: map<string, nat>, ranks: Ranks, c: Cell, a: nat, b: nat)
    requires c in RowQueues(rows, order, ranks) && a < b < |RowQueues(rows, order, ranks)[c]|
    ensures var q := RowQueues(rows, order, ranks)[c]; Less(RowKey(rows, order, ranks)(q[a]), RowKey(rows, order, ranks)(q[b]))
  {
    var q := SortedRows(Stratum(rows, c), rows, order, ranks);
    assert Ascending(q, RowKey(rows, order, ranks));
  }

  lemma SameCellAscends(rows: seq<Row>, order: map<string, nat>, ranks: Ranks, i: nat, j: nat)
    requires CollisionFree(ranks) && i < j < |OrderedRows(rows, order, ranks)|
    requires var all := OrderedRows(rows, order, ranks);
      all[i] < |rows| && all[j] < |rows| && rows[all[i]].coordinates == rows[all[j]].coordinates
    ensures var all := OrderedRows(rows, order, ranks);
      Less(RowKey(rows, order, ranks)(all[i]), RowKey(rows, order, ranks)(all[j]))
  {
    var queues := RowQueues(rows, order, ranks);
    RowQueueLengths(rows, order, ranks);
    FullScheduleFits(queues, ranks);
    var schedule := FullSchedule(StratumSizes(rows), ranks);
    hide FullSchedule, StratumSizes, RowQueues, Fits, Merge, RowKey;
    RowFromQueue(rows, order, schedule, ranks, i);
    RowFromQueue(rows, order, schedule, ranks, j);
    var a, b := MergeSameQueue(schedule, queues, i, j);
    QueueAscends(rows, order, ranks, schedule[i], a, b);
  }

  /** Inside a cell, the row of the earlier polygon comes first, and of one polygon's rows the
      one of smaller rank. */
  ghost predicate ComesFirst(rows: seq<Row>, ranks: Ranks, g: nat, h: nat)
    requires CollisionFree(ranks) && AllAccepted(rows) && g < |rows| && h < |rows|
  {
    if rows[g].polygonId == rows[h].polygonId
    then ranks.sentence(rows[g].sentenceId) < ranks.sentence(rows[h].sentenceId)
    else PolygonBefore(Polygons(rows), ranks, rows[g].polygonId, rows[h].polygonId)
  }

  lemma PolygonPlace(rows: seq<Row>, ranks: Ranks, g: nat)
    requires CollisionFree(ranks) && Acceptable(rows) && g in Eligible(rows)
    ensures var order := OrderedPolygons(Polygons(rows), ranks); var p := rows[g].polygonId;
      p in Positions(order) && Positions(order)[p] < |order| && order[Positions(order)[p]] == p
  {
    hide OrderedPolygons, Positions;
    PolygonsLookup(rows);
    OrderedPolygonsComplete(Polygons(rows), ranks, rows[g].polygonId);
    PositionsAt(OrderedPolygons(Polygons(rows), ranks), rows[g].polygonId);
  }

  lemma KeyMeansFirst(rows: seq<Row>, ranks: Ranks, g: nat, h: nat)
    requires CollisionFree(ranks) && Acceptable(rows) && g in Eligible(rows) && h in Eligible(rows) && g != h
    requires var key := RowKey(rows, PolygonOrder(Polygons(rows), ranks), ranks); Less(key(g), key(h))
    ensures ComesFirst(rows, ranks, g, h)
  {
    PolygonPlace(rows, ranks, g);
    PolygonPlace(rows, ranks, h);
    DifferentRanks(rows, ranks, g, h);
    hide OrderedPolygons, Positions, Acceptable, CollisionFree;
  }

  lemma DifferentRanks(rows: seq<Row>, ranks: Ranks, g: nat, h: nat)
    requires CollisionFree(ranks) && DistinctIds(rows) && g < |rows| && h < |rows| && g != h
    ensures ranks.sentence(rows[g].sentenceId) != ranks.sentence(rows[h].sentenceId)
  {
    var a, b := if g < h then g else h, if g < h then h else g;
    assert rows[a].sentenceId != rows[b].sentenceId;
  }

  /** The candidate order inside a cell: large polygons first, by polygon order, then rank. */
  lemma CellOrder(rows: seq<Row>, ranks: Ranks, i: nat, j: nat)
    requires CollisionFree(ranks) && Acceptable(rows) && i < j < |CandidateOrder(rows, ranks)|
    ensures var order := CandidateOrder(rows, ranks);
      && order[i] < |rows| && order[j] < |rows|
      && (rows[order[i]].coordinates == rows[order[j]].coordinates ==> ComesFirst(rows, ranks, order[i], order[j]))
  {
    hide OrderedRows, Polygons, PolygonOrder, ComesFirst, RowKey;
    CandidateOrderComplete(rows, ranks);
    var order := CandidateOrder(rows, ranks);
    assert order[i] in order && order[j] in order;
    if rows[order[i]].coordinates == rows[order[j]].coordinates {
      SameCellAscends(rows, PolygonOrder(Polygons(rows), ranks), ranks, i, j);
      KeyMeansFirst(rows, ranks, order[i], order[j]);
    }
  }

  /** What is selected of a cell comes before everything that is not, in that order. */
  lemma SelectedComeFirst(rows: seq<Row>, target: nat, ranks: Ranks, g: nat, h: nat)
    requires CollisionFree(ranks) && Acceptable(rows)
    requires g in Select(rows, target, ranks) && h in Eligible(rows) && h !in Select(rows, target, ranks)
    ensures g < |rows| && (rows[g].coordinates == rows[h].coordinates ==> ComesFirst(rows, ranks, g, h))
  {
    hide CandidateOrder, ComesFirst;
    CandidateOrderComplete(rows, ranks);
    var order := CandidateOrder(rows, ranks);
    var n := Min(target, |order|);
    var i :| 0 <= i < n && order[..n][i] == g;
    assert h in order;
    var j :| 0 <= j < |order| && order[j] == h;
    assert forall k :: 0 <= k < n ==> order[k] in order[..n];
    CellOrder(rows, ranks, i, j);
  }

  /** The selected rows of a cell stand in that order. */
  lemma SelectedRowsOrdered(rows: seq<Row>, target: nat, ranks: Ranks, i: nat, j: nat)
    requires CollisionFree(ranks) && Acceptable(rows) && i < j < |SelectedRows(rows, target, ranks)|
    ensures var r := SelectedRows(rows, target, ranks);
      r[i].coordinates == r[j].coordinates ==>
        if r[i].polygonId == r[j].polygonId then ranks.sentence(r[i].sentenceId) < ranks.sentence(r[j].sentenceId)
        else PolygonBefore(Polygons(rows), ranks, r[i].polygonId, r[j].polygonId)
  {
    hide CandidateOrder, Polygons, PolygonBefore;
    CandidateOrderComplete(rows, ranks);
    CellOrder(rows, ranks, i, j);
  }

  // ----- How the rows are spread over the cells -----

  /** The selected rows of one cell. */
  ghost function SelectedOf(rows: seq<Row>, target: nat, ranks: Ranks, c: Cell): set<nat>
    requires CollisionFree(ranks) && AllAccepted(rows)
  {
    Elements(Select(rows, target, ranks)) * Stratum(rows, c)
  }

  lemma CountOneMore(before: set<nat>, x: nat, stratum: set<nat>)
    requires x !in before
    ensures |(before + {x}) * stratum| == |before * stratum| + if x in stratum then 1 else 0
  {
    if x in stratum {
      assert (before + {x}) * stratum == before * stratum + {x};
    } else {
      assert (before + {x}) * stratum == before * stratum;
    }
  }

  lemma ElementsSplit(s: seq<nat>)
    requires s != [] && Distinct(s)
    ensures var n := |s| - 1; Elements(s) == Elements(s[..n]) + {s[n]} && s[n] !in Elements(s[..n]) && Distinct(s[..n])
  {
    assert s == s[..|s| - 1] + [s[|s| - 1]];
  }

  lemma {:induction false} CountOfCell(rows: seq<Row>, s: seq<nat>, cells: seq<Cell>, c: Cell)
    requires |s| == |cells| && Distinct(s)
    requires forall i :: 0 <= i < |s| ==> s[i] < |rows| && rows[s[i]].coordinates == InCell(cells[i])
    ensures |Elements(s) * Stratum(rows, c)| == multiset(cells)[c]
  {
    if s == [] {
      assert Elements(s) * Stratum(rows, c) == {};
    } else {
      var n := |s| - 1;
      assert s[n] in Stratum(rows, c) <==> cells[n] == c;
      hide Stratum, Elements, Distinct;
      ElementsSplit(s);
      CountOfCell(rows, s[..n], cells[..n], c);
      CountStep(cells, c);
      CountOneMore(Elements(s[..n]), s[n], Stratum(rows, c));
    }
  }

  /** The cells of the selected rows are the first ones of the schedule. */
  lemma SelectedCells(rows: seq<Row>, target: nat, ranks: Ranks, c: Cell)
    requires CollisionFree(ranks) && AllAccepted(rows)
    ensures var schedule := FullSchedule(StratumSizes(rows), ranks); var n := |Select(rows, target, ranks)|;
      n <= |schedule| && |SelectedOf(rows, target, ranks, c)| == multiset(schedule[..n])[c]
  {
    hide FullSchedule, StratumSizes, CandidateOrder, Stratum, Distinct, Elements;
    CandidateOrderComplete(rows, ranks);
    CellsOfOrder(rows, ranks);
    var n := |Select(rows, target, ranks)|;
    DistinctPrefix(CandidateOrder(rows, ranks), n);
    CountOfCell(rows, CandidateOrder(rows, ranks)[..n], FullSchedule(StratumSizes(rows), ranks)[..n], c);
  }

  lemma DistinctPrefix(s: seq<nat>, n: nat)
    requires Distinct(s) && n <= |s|
    ensures Distinct(s[..n])
  {
  }

  lemma CellsOfOrder(rows: seq<Row>, ranks: Ranks)
    requires CollisionFree(ranks) && AllAccepted(rows)
    ensures var schedule := FullSchedule(StratumSizes(rows), ranks); var all := CandidateOrder(rows, ranks);
      |all| == |schedule| && forall i :: 0 <= i < |all| ==> all[i] < |rows| && rows[all[i]].coordinates == InCell(schedule[i])
  {
    var order := PolygonOrder(Polygons(rows), ranks);
    var queues := RowQueues(rows, order, ranks);
    RowQueueLengths(rows, order, ranks);
    FullScheduleFits(queues, ranks);
    var schedule := FullSchedule(StratumSizes(rows), ranks);
    hide FullSchedule, StratumSizes, RowQueues, Fits, Merge, PolygonOrder, Polygons;
    var all := CandidateOrder(rows, ranks);
    forall i | 0 <= i < |all| ensures all[i] < |rows| && rows[all[i]].coordinates == InCell(schedule[i]) {
      RowFromQueue(rows, order, schedule, ranks, i);
    }
  }

  /** No cell gets a whole row more than its share of the selection, and no cell lags by more
      than its rows counted once for every other cell. */
  lemma SelectionQuota(rows: seq<Row>, target: nat, ranks: Ranks, c: Cell)
    requires CollisionFree(ranks) && AllAccepted(rows) && c in StratumSizes(rows)
    ensures
      var n, all, own := |Select(rows, target, ranks)|, |Eligible(rows)|, |Stratum(rows, c)|;
      var got := |SelectedOf(rows, target, ranks, c)|;
      && n == Min(target, all)
      && got * all <= n * own + all - own
      && got * all >= (n - (|StratumSizes(rows)| - 1)) * own
  {
    hide StratumSizes, Select, SelectedOf, Eligible, Stratum, FullSchedule;
    SelectNested(rows, target, target, ranks);
    SelectedCells(rows, target, ranks, c);
    SizesAreCounts(rows, c);
    EligibleTotal(rows, ranks);
    ScheduleQuota(StratumSizes(rows), ranks, |Select(rows, target, ranks)|, c);
  }

  lemma ScheduleQuota(sizes: Strata<Cell>, ranks: Ranks, n: nat, c: Cell)
    requires CollisionFree(ranks) && c in sizes && n <= |FullSchedule(sizes, ranks)|
    ensures var got := multiset(FullSchedule(sizes, ranks)[..n])[c];
      && got * Total(sizes) <= n * sizes[c] + Total(sizes) - sizes[c]
      && got * Total(sizes) >= (n - (|sizes| - 1)) * sizes[c]
  {
    hide Greedy, FullSchedule, Injective, Share;
    SchedulePrefix(sizes, ranks, n);
    UpperQuota(sizes, ranks.cell, FullSchedule(sizes, ranks)[..n], c);
    LagBound(sizes, ranks.cell, FullSchedule(sizes, ranks)[..n], c);
  }

  lemma SchedulePrefix(sizes: Strata<Cell>, ranks: Ranks, n: nat)
    requires CollisionFree(ranks) && n <= |FullSchedule(sizes, ranks)|
    ensures Greedy(sizes, Share(sizes, 0), ranks.cell, FullSchedule(sizes, ranks)[..n])
  {
    hide Greedy;
    SumNonNegative(sizes);
    ScheduleGreedy(sizes, Share(sizes, 0), ranks.cell, Total(sizes));
    GreedyPrefix(sizes, Share(sizes, 0), ranks.cell, FullSchedule(sizes, ranks), n);
  }

  lemma EligibleTotal(rows: seq<Row>, ranks: Ranks)
    requires CollisionFree(ranks) && AllAccepted(rows)
    ensures 0 <= Total(StratumSizes(rows)) == |Eligible(rows)|
  {
    var order := PolygonOrder(Polygons(rows), ranks);
    CandidateOrderComplete(rows, ranks);
    RowQueueLengths(rows, order, ranks);
    SumNonNegative(StratumSizes(rows));
    ScheduleGreedy(StratumSizes(rows), Share(StratumSizes(rows), 0), ranks.cell, Total(StratumSizes(rows)));
  }
}
