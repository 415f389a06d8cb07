/** Retaining the quota-best rows of every scheduled stratum, and writing them out. */
module Retention {
  import opened Wrappers
  import opened Ranking
  import opened Sums
  import opened FairQueue
  import opened Apportionment
  import opened Queues
  import opened Sorting
  import opened SentenceTable
  import opened Selection
  import opened SamplingPlan
  import opened QuotaHeaps

  /** The rows of cell `c` among the scanned positions. */
  ghost function ScannedIn(rows: seq<Row>, scanned: set<nat>, c: Cell): set<nat> {
    set g | g in scanned && g < |rows| && rows[g].coordinates == InCell(c)
  }

  /** The positions already passed by the stream. */
  ghost function UpTo(n: nat): set<nat> {
    if n == 0 then {} else UpTo(n - 1) + {n - 1}
  }

  lemma {:induction false} UpToMembers(n: nat)
    ensures forall i: nat :: i in UpTo(n) <==> i < n
  {
    if n > 0 { UpToMembers(n - 1); }
  }

  lemma AllScanned(rows: seq<Row>, c: Cell)
    ensures ScannedIn(rows, UpTo(|rows|), c) == Stratum(rows, c)
  {
    UpToMembers(|rows|);
  }

  /** One heap holds the quota-best of the rows `s`. */
  ghost predicate HoldsBest<P>(heap: seq<Candidate<P>>, s: set<nat>, quota: nat, key: nat -> Key, load: nat -> P)
    requires KeyedByIndex(key)
  {
    quota > 0 && Holds(heap, Retained(s, quota, key), key, load)
  }

  ghost predicate HeapsHold<P>(
    heaps: map<Cell, seq<Candidate<P>>>, quotas: map<Cell, nat>, rows: seq<Row>, scanned: set<nat>,
    key: nat -> Key, load: nat -> P)
  {
    && KeyedByIndex(key)
    && heaps.Keys == quotas.Keys
    && forall c :: c in quotas ==> HoldsBest(heaps[c], ScannedIn(rows, scanned, c), quotas[c], key, load)
  }

  lemma ScanOne(rows: seq<Row>, scanned: set<nat>, g: nat, c: Cell)
    requires g < |rows|
    ensures ScannedIn(rows, scanned + {g}, c) ==
      if rows[g].coordinates == InCell(c) then ScannedIn(rows, scanned, c) + {g} else ScannedIn(rows, scanned, c)
  {
  }

  /** A row without coordinates, or of an unscheduled stratum, changes no heap. */
  lemma SkipRow<P>(
    heaps: map<Cell, seq<Candidate<P>>>, quotas: map<Cell, nat>, rows: seq<Row>, scanned: set<nat>,
    key: nat -> Key, load: nat -> P, g: nat)
    requires HeapsHold(heaps, quotas, rows, scanned, key, load) && g < |rows|
    requires Located(rows[g]) ==> rows[g].coordinates.cell !in quotas
    ensures HeapsHold(heaps, quotas, rows, scanned + {g}, key, load)
  {
    forall c | c in quotas ensures ScannedIn(rows, scanned + {g}, c) == ScannedIn(rows, scanned, c) {
      ScanOne(rows, scanned, g, c);
    }
  }

  lemma StillHolds<P>(
    heaps: map<Cell, seq<Candidate<P>>>, quotas: map<Cell, nat>, rows: seq<Row>, scanned: set<nat>,
    key: nat -> Key, load: nat -> P, g: nat, c: Cell, heap: seq<Candidate<P>>, d: Cell)
    requires KeyedByIndex(key) && g < |rows| && rows[g].coordinates == InCell(c)
    requires c in quotas && d in quotas && d in heaps
    requires HoldsBest(heaps[d], ScannedIn(rows, scanned, d), quotas[d], key, load)
    requires HoldsBest(heap, ScannedIn(rows, scanned, c) + {g}, quotas[c], key, load)
    ensures HoldsBest(heaps[c := heap][d], ScannedIn(rows, scanned + {g}, d), quotas[d], key, load)
  {
    ScanOne(rows, scanned, g, d);
  }

  lemma OneHeapChanged<P>(
    heaps: map<Cell, seq<Candidate<P>>>, quotas: map<Cell, nat>, rows: seq<Row>, scanned: set<nat>,
    key: nat -> Key, load: nat -> P, g: nat, c: Cell, heap: seq<Candidate<P>>)
    requires HeapsHold(heaps, quotas, rows, scanned, key, load) && g < |rows|
    requires rows[g].coordinates == InCell(c) && c in quotas
    requires HoldsBest(heap, ScannedIn(rows, scanned, c) + {g}, quotas[c], key, load)
    ensures HeapsHold(heaps[c := heap], quotas, rows, scanned + {g}, key, load)
  {
    hide HoldsBest;
    var heaps' := heaps[c := heap];
    forall d | d in quotas
      ensures HoldsBest(heaps'[d], ScannedIn(rows, scanned + {g}, d), quotas[d], key, load)
    {
      StillHolds(heaps, quotas, rows, scanned, key, load, g, c, heap, d);
    }
  }

  /** The body of both retention loops for a row whose stratum has a quota. */
  method RetainRow<P>(
    heaps: map<Cell, seq<Candidate<P>>>, quotas: map<Cell, nat>, c: Cell, x: Candidate<P>,
    ghost rows: seq<Row>, ghost scanned: set<nat>, ghost key: nat -> Key, ghost load: nat -> P)
    returns (r: map<Cell, seq<Candidate<P>>>, change: Change<P>)
    requires HeapsHold(heaps, quotas, rows, scanned, key, load)
    requires c in quotas && x.index < |rows| && rows[x.index].coordinates == InCell(c)
    requires x.index !in scanned && Faithful(x, key, load)
    ensures HeapsHold(r, quotas, rows, scanned + {x.index}, key, load)
    ensures ChangeOf(change, Retained(ScannedIn(rows, scanned, c), quotas[c], key),
      Retained(ScannedIn(rows, scanned + {x.index}, c), quotas[c], key), x.index)
  {
    ScanOne(rows, scanned, x.index, c);
    var heap;
    heap, change := Offer(heaps[c], x, quotas[c], ScannedIn(rows, scanned, c), key, load);
    OneHeapChanged(heaps, quotas, rows, scanned, key, load, x.index, c, heap);
    r := heaps[c := heap];
  }

  lemma EmptyHeapsHold<P>(quotas: map<Cell, nat>, rows: seq<Row>, key: nat -> Key, load: nat -> P)
    requires KeyedByIndex(key) && forall c :: c in quotas ==> quotas[c] > 0
    ensures HeapsHold(map c | c in quotas :: [], quotas, rows, {}, key, load)
  {
    forall c | c in quotas ensures ScannedIn(rows, {}, c) == {} {}
  }

  // ----- Writing the retained rows in schedule order -----

  function EmptyRow(): Row {
    Row("", "", Missing, None, "")
  }

  function RowAt(rows: seq<Row>): nat -> Row {
    (g: nat) => if g < |rows| then rows[g] else EmptyRow()
  }

  function CandidateKey(): Candidate<Row> -> Key {
    (c: Candidate<Row>) => KeyOf(c)
  }

  lemma HeapSortable(heap: seq<Candidate<Row>>, h: set<nat>, key: nat -> Key, rows: seq<Row>)
    requires Lists(heap, h, key, RowAt(rows))
    ensures Distinct(heap) && Distinguishes(CandidateKey(), Elements(heap))
  {
    forall x, y | x in Elements(heap) && y in Elements(heap) && x != y
      ensures CandidateKey()(x) != CandidateKey()(y)
    {
      var i :| 0 <= i < |heap| && heap[i] == x;
      var j :| 0 <= j < |heap| && heap[j] == y;
      assert heap[i].index != heap[j].index;
    }
  }

  lemma SortedIndexes(
    sorted: seq<Candidate<Row>>, heap: seq<Candidate<Row>>, h: set<nat>, key: nat -> Key, rows: seq<Row>)
    requires Lists(heap, h, key, RowAt(rows))
    requires Ascending(sorted, CandidateKey()) && Elements(sorted) == Elements(heap)
    ensures Ascending(Indexes(sorted), key) && Elements(Indexes(sorted)) == h
    ensures forall i :: 0 <= i < |sorted| ==> sorted[i].payload == RowAt(rows)(Indexes(sorted)[i])
  {
    var indexes := Indexes(sorted);
    forall i | 0 <= i < |sorted| ensures sorted[i].index in h && Faithful(sorted[i], key, RowAt(rows)) {
      assert sorted[i] in Elements(sorted);
      var j :| 0 <= j < |heap| && heap[j] == sorted[i];
    }
    forall i, j | 0 <= i < j < |sorted| ensures Less(key(indexes[i]), key(indexes[j])) {
      assert Less(CandidateKey()(sorted[i]), CandidateKey()(sorted[j]));
    }
    forall g | g in h ensures g in Elements(indexes) {
      assert HasIndex(heap, g);
      var j :| 0 <= j < |heap| && heap[j].index == g;
      assert heap[j] in Elements(sorted);
      var i :| 0 <= i < |sorted| && sorted[i] == heap[j];
      assert indexes[i] == g;
    }
  }

  /** Sorting a heap by its key lists the retained rows in row order. */
  lemma SortedHeap(heap: seq<Candidate<Row>>, h: set<nat>, key: nat -> Key, rows: seq<Row>)
    requires KeyedByIndex(key) && Lists(heap, h, key, RowAt(rows))
    ensures Distinct(heap) && Distinguishes(CandidateKey(), Elements(heap)) && Distinguishes(key, h)
    ensures var sorted := Sort(Elements(heap), CandidateKey());
      && |sorted| == |Sort(h, key)|
      && forall i :: 0 <= i < |sorted| ==> sorted[i].payload == RowAt(rows)(Sort(h, key)[i])
  {
    KeyedDistinguishes(key, h);
    HeapSortable(heap, h, key, rows);
    var sorted := Sort(Elements(heap), CandidateKey());
    SortedIndexes(sorted, heap, h, key, rows);
    SortUnique(Indexes(sorted), Sort(h, key), key);
  }

  // ----- Mapped queues -----

  ghost predicate MapsTo<V, W>(a: seq<V>, b: seq<W>, f: V -> W) {
    |a| == |b| && forall i :: 0 <= i < |a| ==> b[i] == f(a[i])
  }

  /** Draining queues of rows is draining queues of positions. */
  lemma {:induction false} MergeMapped<K(!new), V, W>(
    schedule: seq<K>, a: map<K, seq<V>>, b: map<K, seq<W>>, f: V -> W)
    requires Fits(schedule, a) && a.Keys == b.Keys
    requires forall k :: k in a ==> MapsTo(a[k], b[k], f)
    ensures Fits(schedule, b) && MapsTo(Merge(schedule, a), Merge(schedule, b), f)
  {
    assert Fits(schedule, b);
    if schedule != [] {
      FitsLast(schedule, a);
      FitsLast(schedule, b);
      MergeMapped(schedule[..|schedule| - 1], a, b, f);
    }
  }

  // ----- The bounded selection is the reference selection -----

  /** The retained rows of each scheduled stratum, in row order. */
  ghost function RetainedQueues(rows: seq<Row>, plan: Plan, ranks: Ranks): map<Cell, seq<nat>> {
    map c | c in plan.quotas ::
      SortedRows(RetainedRows(rows, plan, ranks, c), rows, plan.polygonOrder, ranks)
  }

  lemma RowKeyByIndex(rows: seq<Row>, order: map<string, nat>, ranks: Ranks)
    ensures KeyedByIndex(RowKey(rows, order, ranks))
  {
  }

  ghost function RetainedRows(rows: seq<Row>, plan: Plan, ranks: Ranks, c: Cell): set<nat>
    requires c in plan.quotas
  {
    RowKeyByIndex(rows, plan.polygonOrder, ranks);
    Retained(Stratum(rows, c), plan.quotas[c], RowKey(rows, plan.polygonOrder, ranks))
  }

  /** What the planned schedule is of the full one, and what it asks of each stratum. */
  lemma PlannedPrefix(sizes: Strata<Cell>, target: nat, ranks: Ranks)
    requires CollisionFree(ranks)
    ensures var schedule := PlannedSchedule(sizes, target, ranks);
      && |schedule| == Capped(target, Total(sizes)) == Capped(target, |FullSchedule(sizes, ranks)|)
      && schedule == FullSchedule(sizes, ranks)[..|schedule|]
      && forall c :: c in Quotas(schedule) ==> c in sizes && 0 < Quotas(schedule)[c] <= sizes[c]
  {
    SumNonNegative(sizes);
    var prio := Share(sizes, 0);
    var limit := Capped(target, Total(sizes));
    ScheduleGreedy(sizes, prio, ranks.cell, limit);
    ScheduleGreedy(sizes, prio, ranks.cell, Total(sizes));
    ScheduleNested(sizes, prio, ranks.cell, limit, Total(sizes));
    GreedyWithin(sizes, prio, ranks.cell, PlannedSchedule(sizes, target, ranks));
  }

  lemma SortRetained(s: set<nat>, quota: nat, key: nat -> Key)
    requires KeyedByIndex(key)
    ensures Distinguishes(key, s) && Distinguishes(key, Retained(s, quota, key))
    ensures Sort(Retained(s, quota, key), key) == Sort(s, key)[..Min(quota, |s|)]
  {
    KeyedDistinguishes(key, s);
    BestIsPrefix(Retained(s, quota, key), s, quota, key);
  }

  lemma RetainedRowsArePrefix(rows: seq<Row>, plan: Plan, ranks: Ranks, c: Cell)
    requires c in plan.quotas
    ensures SortedRows(RetainedRows(rows, plan, ranks, c), rows, plan.polygonOrder, ranks)
      == SortedRows(Stratum(rows, c), rows, plan.polygonOrder, ranks)[..Min(plan.quotas[c], |Stratum(rows, c)|)]
  {
    RowKeyByIndex(rows, plan.polygonOrder, ranks);
    SortRetained(Stratum(rows, c), plan.quotas[c], RowKey(rows, plan.polygonOrder, ranks));
  }

  lemma PrefixMerge<V>(
    full: map<Cell, seq<V>>, short: map<Cell, seq<V>>, schedule: seq<Cell>, whole: seq<Cell>)
    requires Fits(whole, full) && schedule <= whole
    requires forall c :: c in multiset(schedule) ==> c in short && c in full && short[c] <= full[c]
    requires forall c :: c in multiset(schedule) ==> |short[c]| == multiset(schedule)[c]
    ensures Fits(schedule, short)
    ensures Merge(schedule, short) == Merge(whole, full)[..|schedule|]
  {
    assert whole[..|schedule|] == schedule;
    MergePrefix(whole, full, |schedule|);
    MergeTruncated(schedule, full, short);
  }

  /** Draining the quota-bounded queues along the planned schedule gives a prefix of
      draining the full queues along the full schedule. */
  lemma BoundedMerge(rows: seq<Row>, plan: Plan, target: nat, ranks: Ranks)
    requires CollisionFree(ranks)
    requires plan.schedule == PlannedSchedule(StratumSizes(rows), target, ranks)
    requires plan.quotas == Quotas(plan.schedule)
    ensures Fits(plan.schedule, RetainedQueues(rows, plan, ranks))
    ensures Merge(plan.schedule, RetainedQueues(rows, plan, ranks))
      == OrderedRows(rows, plan.polygonOrder, ranks)[..Min(target, |OrderedRows(rows, plan.polygonOrder, ranks)|)]
  {
    hide RetainedQueues, RowQueues, PlannedSchedule, FullSchedule, StratumSizes, Merge, Fits;
    var full := RowQueues(rows, plan.polygonOrder, ranks);
    var short := RetainedQueues(rows, plan, ranks);
    PlannedPrefix(StratumSizes(rows), target, ranks);
    RowQueueLengths(rows, plan.polygonOrder, ranks);
    FullScheduleFits(full, ranks);
    forall c | c in multiset(plan.schedule)
      ensures c in short && c in full && |short[c]| == multiset(plan.schedule)[c] && short[c] <= full[c]
    {
      QueueShortened(rows, plan, ranks, c);
    }
    PrefixMerge(full, short, plan.schedule, FullSchedule(StratumSizes(rows), ranks));
  }

  lemma QueueShortened(rows: seq<Row>, plan: Plan, ranks: Ranks, c: Cell)
    requires c in plan.quotas && c in StratumSizes(rows) && plan.quotas[c] <= StratumSizes(rows)[c]
    ensures c in RetainedQueues(rows, plan, ranks) && c in RowQueues(rows, plan.polygonOrder, ranks)
    ensures |RetainedQueues(rows, plan, ranks)[c]| == plan.quotas[c]
    ensures RetainedQueues(rows, plan, ranks)[c] <= RowQueues(rows, plan.polygonOrder, ranks)[c]
  {
    hide RetainedRows, Stratum, StratumSizes;
    SizesAreCounts(rows, c);
    RetainedRowsArePrefix(rows, plan, ranks, c);
  }

  // ----- _write_selected -----

  /** Every scheduled stratum is listed with its quota-best rows of the whole table. */
  ghost predicate ListsRetained(heaps: map<Cell, seq<Candidate<Row>>>, rows: seq<Row>, plan: Plan, ranks: Ranks) {
    && heaps.Keys == plan.quotas.Keys
    && forall c :: c in plan.quotas ==> ListsStratum(heaps[c], rows, plan, ranks, c)
  }

  ghost predicate ListsStratum(heap: seq<Candidate<Row>>, rows: seq<Row>, plan: Plan, ranks: Ranks, c: Cell)
    requires c in plan.quotas
  {
    Lists(heap, RetainedRows(rows, plan, ranks, c), RowKey(rows, plan.polygonOrder, ranks), RowAt(rows))
  }

  function Payloads(items: seq<Candidate<Row>>): (r: seq<Row>)
    ensures |r| == |items| && forall i :: 0 <= i < |items| ==> r[i] == items[i].payload
  {
    seq(|items|, i requires 0 <= i < |items| => items[i].payload)
  }

  lemma SortedStratum(
    heap: seq<Candidate<Row>>, rows: seq<Row>, plan: Plan, ranks: Ranks, c: Cell, sorted: seq<Candidate<Row>>)
    requires c in plan.quotas && ListsStratum(heap, rows, plan, ranks, c)
    ensures Distinct(heap) && Distinguishes(CandidateKey(), Elements(heap))
    ensures sorted == Sort(Elements(heap), CandidateKey()) ==>
      MapsTo(RetainedQueues(rows, plan, ranks)[c], Payloads(sorted), RowAt(rows))
  {
    RowKeyByIndex(rows, plan.polygonOrder, ranks);
    SortedHeap(heap, RetainedRows(rows, plan, ranks, c), RowKey(rows, plan.polygonOrder, ranks), rows);
  }

  /** Each heap sorted into row order, as a queue of rows. */
  method SortHeaps(heaps: map<Cell, seq<Candidate<Row>>>, ghost rows: seq<Row>, plan: Plan, ghost ranks: Ranks)
    returns (queues: map<Cell, seq<Row>>)
    requires ListsRetained(heaps, rows, plan, ranks)
    ensures queues.Keys == plan.quotas.Keys
    ensures forall c :: c in queues ==> MapsTo(RetainedQueues(rows, plan, ranks)[c], queues[c], RowAt(rows))
  {
    hide ListsStratum, MapsTo, Distinct, Distinguishes, RetainedRows, RowAt, SortedRows, Elements, Sort;
    forall c | c in heaps ensures Distinct(heaps[c]) && Distinguishes(CandidateKey(), Elements(heaps[c])) {
      SortedStratum(heaps[c], rows, plan, ranks, c, []);
    }
    var sorted := SortGroups(heaps, CandidateKey());
    queues := map c | c in sorted :: Payloads(sorted[c]);
    forall c | c in queues ensures MapsTo(RetainedQueues(rows, plan, ranks)[c], queues[c], RowAt(rows)) {
      SortedStratum(heaps[c], rows, plan, ranks, c, sorted[c]);
    }
  }

  ghost predicate TableIs(rows: seq<Row>, plan: Plan, target: nat, ranks: Ranks)
    requires CollisionFree(ranks)
  {
    AllAccepted(rows) && Consistent(rows) && plan == TablePlan(rows, target, ranks)
  }

  lemma RowQueuesGiveSelection(
    queues: map<Cell, seq<Row>>, rows: seq<Row>, plan: Plan, target: nat, ranks: Ranks)
    requires CollisionFree(ranks) && TableIs(rows, plan, target, ranks)
    requires queues.Keys == plan.quotas.Keys
    requires forall c :: c in queues ==> MapsTo(RetainedQueues(rows, plan, ranks)[c], queues[c], RowAt(rows))
    ensures Fits(plan.schedule, queues)
    ensures Merge(plan.schedule, queues) == SelectedRows(rows, target, ranks)
  {
    hide Merge, Fits, OrderedRows, RetainedRows, SortedRows, FullSchedule, PolygonOrder, Polygons, PlannedSchedule, StratumSizes;
    BoundedMerge(rows, plan, target, ranks);
    MergeMapped(plan.schedule, RetainedQueues(rows, plan, ranks), queues, RowAt(rows));
    SelectInRange(rows, target, ranks);
  }

  /** `_write_selected`: pop along the schedule, flushing every `batchSize` rows. */
  method WriteSelected(
    heaps: map<Cell, seq<Candidate<Row>>>, ghost rows: seq<Row>, plan: Plan, ghost target: nat, ghost ranks: Ranks,
    batchSize: nat)
    returns (written: seq<Row>)
    requires CollisionFree(ranks) && TableIs(rows, plan, target, ranks) && batchSize >= 1
    requires ListsRetained(heaps, rows, plan, ranks)
    ensures written == SelectedRows(rows, target, ranks)
  {
    hide TableIs, ListsRetained, Fits, Merge, Drained, SelectedRows, RetainedQueues, MapsTo, RowAt;
    var queues := SortHeaps(heaps, rows, plan, ranks);
    RowQueuesGiveSelection(queues, rows, plan, target, ranks);
    var left := queues;
    var pending: seq<Row> := [];
    written := [];
    StartDrained(queues, plan.schedule);
    for i := 0 to |plan.schedule|
      invariant Drained(left, queues, plan.schedule[..i])
      invariant Fits(plan.schedule[..i], queues)
      invariant written + pending == Merge(plan.schedule[..i], queues)
    {
      DrainStep(left, queues, plan.schedule, i);
      var stratum := plan.schedule[i];
      pending := pending + [left[stratum][0]];
      left := left[stratum := left[stratum][1..]];
      if |pending| == batchSize {
        written, pending := written + pending, [];
      }
    }
    assert plan.schedule[..|plan.schedule|] == plan.schedule;
    written := written + pending;
  }

  lemma StartDrained<V>(queues: map<Cell, seq<V>>, schedule: seq<Cell>)
    ensures Drained(queues, queues, schedule[..0])
    ensures Fits(schedule[..0], queues) && Merge(schedule[..0], queues) == []
  {
  }
}
