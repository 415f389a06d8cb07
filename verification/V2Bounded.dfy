/** Two streaming passes over the table: plan, then retain and write. */
module V2Bounded {
  import opened Wrappers
  import opened Ranking
  import opened Sums
  import opened FairQueue
  import opened Queues
  import opened Sorting
  import opened SentenceTable
  import opened Selection
  import opened V2Sampling
  import opened SamplingPlan
  import opened QuotaHeaps
  import opened Retention

  // ----- First pass -----

  /** The planner of the first pass; `seen` is the stream observed so far. */
  class Planner {
    var polygonMetadata: map<string, Metadata>
    var stratumSizes: Strata<Cell>
    var sentenceIds: set<string>
    var totalRows: nat
    ghost var seen: seq<Row>

    ghost predicate Valid()
      reads this
    {
      && Plannable(seen)
      && polygonMetadata == Polygons(seen)
      && "" !in polygonMetadata
      && stratumSizes == StratumSizes(seen)
      && sentenceIds == IdSet(seen)
      && totalRows == |seen|
    }

    constructor ()
      ensures Valid() && seen == []
    {
      polygonMetadata, stratumSizes, sentenceIds, totalRows := map[], map[], {}, 0;
      seen := [];
    }

    /** One batch is accepted exactly when the stream so far stays plannable. */
    method Observe(batch: seq<Row>) returns (ok: bool)
      requires Valid()
      modifies this
      ensures ok <==> Plannable(old(seen) + batch)
      ensures ok ==> Valid() && seen == old(seen) + batch
    {
      var checked := CheckBatch(batch, polygonMetadata, seen);
      if checked.Err? {
        return false;
      }
      var inserted, ids := InsertIds(sentenceIds, batch, seen);
      if !inserted {
        return false;
      }
      var (meta, counts) := checked.value;
      var sizes := AddCounts(stratumSizes, counts);
      SizesConcat(seen, batch);
      polygonMetadata, stratumSizes, sentenceIds := meta, sizes, ids;
      totalRows := totalRows + |batch|;
      seen := seen + batch;
      ok := true;
    }
  }

  lemma NonEmptyStep(rows: seq<Row>, i: nat)
    requires i < |rows| && NonEmptyIds(rows[..i])
    ensures rows[i].sentenceId != "" ==> NonEmptyIds(rows[..i + 1])
    ensures rows[i].sentenceId == "" ==> !NonEmptyIds(rows)
  {
    assert forall k :: 0 <= k < i ==> rows[..i + 1][k] == rows[..i][k];
  }

  lemma NoSizes()
    ensures StratumSizes([]) == map[]
  {
  }

  /** The row loop of `observe`: metadata extended row by row, rows counted per stratum. */
  method CheckBatch(batch: seq<Row>, meta: map<string, Metadata>, ghost seen: seq<Row>)
    returns (r: Result<(map<string, Metadata>, Strata<Cell>)>)
    requires AllAccepted(seen) && Consistent(seen) && NonEmptyIds(seen)
    requires meta == Polygons(seen) && "" !in meta
    ensures r.Ok? <==> AllAccepted(seen + batch) && Consistent(seen + batch) && NonEmptyIds(seen + batch)
    ensures r.Ok? ==> r.value == (Polygons(seen + batch), StratumSizes(batch)) && "" !in r.value.0
  {
    hide Polygons, StratumSizes, AllAccepted, Consistent, NonEmptyIds, AddRows, RowAccepted;
    NoSizes();
    ghost var all := seen + batch;
    var known, counts: Strata<Cell> := meta, map[];
    assert all[..|seen|] == seen;
    for i := 0 to |batch|
      invariant AllAccepted(all[..|seen| + i]) && Consistent(all[..|seen| + i]) && NonEmptyIds(all[..|seen| + i])
      invariant known == Polygons(all[..|seen| + i]) && "" !in known
      invariant counts == StratumSizes(batch[..i])
    {
      assert all[|seen| + i] == batch[i];
      NonEmptyStep(all, |seen| + i);
      if batch[i].sentenceId == "" {
        return Err("sentence_id must be non-empty");
      }
      CheckRowStep(all, |seen| + i, known);
      var checked := CheckRow(batch[i], known);
      if checked.Err? {
        return Err(checked.message);
      }
      SizesStep(batch, i);
      if Located(batch[i]) {
        counts := AddRows(counts, batch[i].coordinates.cell, 1);
      }
      known := checked.value;
    }
    assert all[..|all|] == all && batch[..|batch|] == batch;
    return Ok((known, counts));
  }

  // ----- Second pass -----

  function CandidateAt(plan: Plan, ranks: Ranks, r: Row, g: nat): Candidate<Row>
    requires r.polygonId in plan.polygonOrder
  {
    Candidate(plan.polygonOrder[r.polygonId], ranks.sentence(r.sentenceId), g, r)
  }

  ghost predicate AllRetained(heaps: map<Cell, seq<Candidate<Row>>>, rows: seq<Row>, scanned: set<nat>, plan: Plan, ranks: Ranks) {
    HeapsHold(heaps, plan.quotas, rows, scanned, RowKey(rows, plan.polygonOrder, ranks), RowAt(rows))
  }

  lemma PlannedRow(rows: seq<Row>, plan: Plan, target: nat, ranks: Ranks, g: nat)
    requires CollisionFree(ranks) && TableIs(rows, plan, target, ranks)
    requires g < |rows| && Located(rows[g])
    ensures rows[g].polygonId in plan.polygonMetadata && rows[g].polygonId in plan.polygonOrder
    ensures plan.polygonMetadata[rows[g].polygonId].cell == rows[g].coordinates.cell
    ensures Faithful(CandidateAt(plan, ranks, rows[g], g), RowKey(rows, plan.polygonOrder, ranks), RowAt(rows))
  {
    PolygonsLookup(rows);
    PolygonOrderCovers(rows, ranks);
  }

  method RetainOne(
    heaps: map<Cell, seq<Candidate<Row>>>, rows: seq<Row>, g: nat, plan: Plan, ranks: Ranks, ghost target: nat)
    returns (r: map<Cell, seq<Candidate<Row>>>)
    requires CollisionFree(ranks) && TableIs(rows, plan, target, ranks)
    requires g < |rows| && AllRetained(heaps, rows, UpTo(g), plan, ranks)
    ensures AllRetained(r, rows, UpTo(g + 1), plan, ranks)
  {
    hide TableIs, HeapsHold, RowKey, RowAt, Faithful;
    assert UpTo(g + 1) == UpTo(g) + {g};
    ghost var key, load := RowKey(rows, plan.polygonOrder, ranks), RowAt(rows);
    UpToMembers(g);
    if rows[g].coordinates.Missing? {
      SkipRow(heaps, plan.quotas, rows, UpTo(g), key, load, g);
      return heaps;
    }
    assert Located(rows[g]) by { AcceptedNotInvalid(rows, plan, target, ranks, g); }
    PlannedRow(rows, plan, target, ranks, g);
    var stratum := plan.polygonMetadata[rows[g].polygonId].cell;
    if stratum !in plan.quotas {
      SkipRow(heaps, plan.quotas, rows, UpTo(g), key, load, g);
      return heaps;
    }
    var change;
    r, change := RetainRow(heaps, plan.quotas, stratum, CandidateAt(plan, ranks, rows[g], g), rows, UpTo(g), key, load);
  }

  lemma AcceptedNotInvalid(rows: seq<Row>, plan: Plan, target: nat, ranks: Ranks, g: nat)
    requires CollisionFree(ranks) && TableIs(rows, plan, target, ranks) && g < |rows|
    ensures !rows[g].coordinates.Invalid?
  {
    assert RowAccepted(rows[g]);
  }

  /** After the whole stream, every heap lists its stratum's quota-best rows and is full. */
  lemma StreamRetained(
    heaps: map<Cell, seq<Candidate<Row>>>, rows: seq<Row>, plan: Plan, target: nat, ranks: Ranks)
    requires CollisionFree(ranks) && TableIs(rows, plan, target, ranks)
    requires AllRetained(heaps, rows, UpTo(|rows|), plan, ranks)
    ensures ListsRetained(heaps, rows, plan, ranks)
    ensures forall c :: c in plan.quotas ==> |heaps[c]| == plan.quotas[c]
  {
    forall c | c in plan.quotas
      ensures ListsStratum(heaps[c], rows, plan, ranks, c) && |heaps[c]| == plan.quotas[c]
    {
      HeapFull(heaps, rows, plan, target, ranks, c);
    }
  }

  lemma HeapFull(
    heaps: map<Cell, seq<Candidate<Row>>>, rows: seq<Row>, plan: Plan, target: nat, ranks: Ranks, c: Cell)
    requires CollisionFree(ranks) && TableIs(rows, plan, target, ranks) && c in plan.quotas
    requires AllRetained(heaps, rows, UpTo(|rows|), plan, ranks)
    ensures ListsStratum(heaps[c], rows, plan, ranks, c) && |heaps[c]| == plan.quotas[c]
  {
    hide PlannedSchedule, PolygonOrder, Polygons, StratumSizes, Stratum, ScannedIn, RowKey, RowAt;
    AllScanned(rows, c);
    PlannedPrefix(StratumSizes(rows), target, ranks);
    SizesAreCounts(rows, c);
    var key, load := RowKey(rows, plan.polygonOrder, ranks), RowAt(rows);
    RowKeyByIndex(rows, plan.polygonOrder, ranks);
    ListsSize(heaps[c], Retained(Stratum(rows, c), plan.quotas[c], key), key, load);
  }

  /** `_retain_candidates`: the stream is read again in batches of any size. */
  method RetainCandidates(rows: seq<Row>, plan: Plan, ranks: Ranks, batchSize: nat, ghost target: nat)
    returns (heaps: map<Cell, seq<Candidate<Row>>>)
    requires CollisionFree(ranks) && TableIs(rows, plan, target, ranks) && batchSize >= 1
    ensures AllRetained(heaps, rows, UpTo(|rows|), plan, ranks)
  {
    hide TableIs, AllRetained, HeldRows, Eligible;
    heaps := map c | c in plan.quotas :: [];
    StartRetained(rows, plan, target, ranks);
    HeldRowsBounded(heaps, rows, UpTo(0), plan, target, ranks);
    var globalIndex := 0;
    while globalIndex < |rows|
      invariant globalIndex <= |rows|
      invariant AllRetained(heaps, rows, UpTo(globalIndex), plan, ranks)
      invariant HeldRows(heaps) <= Min(target, |Eligible(rows)|)
    {
      var length: nat :| 1 <= length <= batchSize && length <= |rows| - globalIndex by {
        assert 1 <= 1 <= batchSize && 1 <= |rows| - globalIndex;
      }
      var end := globalIndex + length;
      while globalIndex < end
        invariant globalIndex <= end
        invariant AllRetained(heaps, rows, UpTo(globalIndex), plan, ranks)
        // At every point of the stream, no more rows than the result can have.
        invariant HeldRows(heaps) <= Min(target, |Eligible(rows)|)
      {
        heaps := RetainOne(heaps, rows, globalIndex, plan, ranks, target);
        HeldRowsBounded(heaps, rows, UpTo(globalIndex + 1), plan, target, ranks);
        globalIndex := globalIndex + 1;
      }
    }
  }

  lemma StartRetained(rows: seq<Row>, plan: Plan, target: nat, ranks: Ranks)
    requires CollisionFree(ranks) && TableIs(rows, plan, target, ranks)
    ensures AllRetained(map c | c in plan.quotas :: [], rows, UpTo(0), plan, ranks)
  {
    RowKeyByIndex(rows, plan.polygonOrder, ranks);
    EmptyHeapsHold(plan.quotas, rows, RowKey(rows, plan.polygonOrder, ranks), RowAt(rows));
  }

  // ----- How much the heaps hold -----

  lemma {:induction false} QuotasTotal(schedule: seq<Cell>)
    ensures Sum(Quotas(schedule)) == |schedule|
  {
    if schedule == [] {
      SumZero(Quotas(schedule));
    } else {
      var n := |schedule| - 1;
      var before := Quotas(schedule[..n]);
      var c := schedule[n];
      QuotasTotal(schedule[..n]);
      SplitLast(schedule);
      SumUpdate(before, c, (if c in before then before[c] else 0) + 1);
      assert Quotas(schedule) == before[c := (if c in before then before[c] else 0) + 1];
    }
  }

  lemma StratumTotal(rows: seq<Row>, ranks: Ranks)
    requires CollisionFree(ranks) && AllAccepted(rows)
    ensures Total(StratumSizes(rows)) == |Eligible(rows)|
  {
    hide OrderedRows, FullSchedule, Merge, StratumSizes, Eligible;
    CandidateOrderComplete(rows, ranks);
    ScheduledRows(rows, PolygonOrder(Polygons(rows), ranks), ranks);
  }

  lemma ScheduledRows(rows: seq<Row>, order: map<string, nat>, ranks: Ranks)
    requires CollisionFree(ranks)
    ensures |OrderedRows(rows, order, ranks)| == Total(StratumSizes(rows))
  {
    RowQueueLengths(rows, order, ranks);
    SumNonNegative(StratumSizes(rows));
    ScheduleGreedy(StratumSizes(rows), Apportionment.Share(StratumSizes(rows), 0), ranks.cell, Total(StratumSizes(rows)));
  }

  ghost function HeldRows(heaps: map<Cell, seq<Candidate<Row>>>): int {
    Sum(map c | c in heaps :: |heaps[c]|)
  }

  lemma HeldInStratum(
    heaps: map<Cell, seq<Candidate<Row>>>, rows: seq<Row>, scanned: set<nat>, plan: Plan, ranks: Ranks, c: Cell)
    requires AllRetained(heaps, rows, scanned, plan, ranks) && c in plan.quotas
    ensures |heaps[c]| <= plan.quotas[c]
  {
    hide RowKey, RowAt, ScannedIn;
    RowKeyByIndex(rows, plan.polygonOrder, ranks);
    var key, load := RowKey(rows, plan.polygonOrder, ranks), RowAt(rows);
    assert HoldsBest(heaps[c], ScannedIn(rows, scanned, c), plan.quotas[c], key, load);
    ListsSize(heaps[c], Retained(ScannedIn(rows, scanned, c), plan.quotas[c], key), key, load);
  }

  /** At no point of the stream do the heaps hold more than `min(target, eligible)` rows. */
  lemma HeldRowsBounded(
    heaps: map<Cell, seq<Candidate<Row>>>, rows: seq<Row>, scanned: set<nat>, plan: Plan, target: nat, ranks: Ranks)
    requires CollisionFree(ranks) && TableIs(rows, plan, target, ranks)
    requires AllRetained(heaps, rows, scanned, plan, ranks)
    ensures HeldRows(heaps) <= Min(target, |Eligible(rows)|)
  {
    hide TableIs, Eligible;
    forall c | c in plan.quotas ensures |heaps[c]| <= plan.quotas[c] {
      HeldInStratum(heaps, rows, scanned, plan, ranks, c);
    }
    HeldWithin(heaps, plan.quotas);
    QuotasWithin(rows, plan, target, ranks);
  }

  lemma HeldWithin(heaps: map<Cell, seq<Candidate<Row>>>, quotas: map<Cell, nat>)
    requires heaps.Keys == quotas.Keys && forall c :: c in quotas ==> |heaps[c]| <= quotas[c]
    ensures HeldRows(heaps) <= Sum(quotas)
  {
    var held: map<Cell, int> := map c | c in heaps :: |heaps[c]|;
    SumMonotone(held, quotas);
  }

  lemma QuotasWithin(rows: seq<Row>, plan: Plan, target: nat, ranks: Ranks)
    requires CollisionFree(ranks) && TableIs(rows, plan, target, ranks)
    ensures Sum(plan.quotas) <= Min(target, |Eligible(rows)|)
  {
    hide StratumSizes, Eligible, PlannedSchedule;
    QuotasTotal(plan.schedule);
    StratumTotal(rows, ranks);
    PlannedPrefix(StratumSizes(rows), target, ranks);
  }

  // ----- Both passes -----

  /** `select_v2_parquet_bounded`: the streamed selection is the in-memory one. */
  method SelectBounded(rows: seq<Row>, target: int, ranks: Ranks, batchSize: int) returns (r: Result<seq<Row>>)
    requires CollisionFree(ranks)
    ensures r.Ok? <==> target >= 1 && batchSize >= 1 && Plannable(rows)
    ensures r.Ok? ==> r.value == SelectedRows(rows, target, ranks)
  {
    if target < 1 { return Err("target must be a positive integer"); }
    if batchSize < 1 { return Err("batch_size must be a positive integer"); }
    var planner := new Planner();
    var read := 0;
    while read < |rows|
      invariant read <= |rows|
      invariant planner.Valid() && planner.seen == rows[..read]
    {
      var length: nat :| 1 <= length <= batchSize && length <= |rows| - read by {
        assert 1 <= 1 <= batchSize && 1 <= |rows| - read;
      }
      assert rows[..read] + rows[read..read + length] == rows[..read + length];
      assert rows[..read + length] + rows[read + length..] == rows;
      var ok := planner.Observe(rows[read..read + length]);
      if !ok {
        if Plannable(rows) { PlannablePrefix(rows[..read + length], rows[read + length..]); }
        return Err("sampling input is invalid");
      }
      read := read + length;
    }
    assert rows[..|rows|] == rows;
    var plan := BuildPlan(planner.polygonMetadata, planner.stratumSizes, planner.totalRows, target, ranks);
    var heaps := RetainCandidates(rows, plan, ranks, batchSize, target);
    StreamRetained(heaps, rows, plan, target, ranks);
    var written := WriteSelected(heaps, rows, plan, target, ranks, batchSize);
    return Ok(written);
  }
}
