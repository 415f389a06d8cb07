/** `select_v2_shards_resumable`: plan, retain, materialize and write, restartable after a
    crash at any durable write. */
module V2Resumable {
  import opened Wrappers
  import opened Ranking
  import opened Sums
  import opened FairQueue
  import opened SentenceTable
  import opened Selection
  import opened Sorting
  import opened SamplingPlan
  import opened QuotaHeaps
  import opened Retention
  import opened ShardCorpus
  import opened V2Ledger
  import opened V2Materialize
  import opened V2Store

  /** How a stage of a run ends: the process may die at any durable write. */
  datatype Stage = Finished | Died | Refused(message: string)

  /** Whether the process outlives a durable write. */
  method Survives(mayCrash: bool) returns (alive: bool)
    ensures !mayCrash ==> alive
  {
    alive := *;
    if !mayCrash {
      alive := true;
    }
  }

  // ----- Planning -----

  /** Scan one shard in batches of any size and commit it whole. */
  method PlanShard(
    planner: PersistentPlanner, corpus: seq<Source>, j: nat, offset: nat, batchSize: nat, ghost job: Job)
    returns (r: Stage)
    requires planner.Idle() && batchSize >= 1
    requires job.corpus == corpus && CollisionFree(job.ranks) && DistinctKeys(corpus) && j < |corpus|
    requires TablesValid(planner.store.tables, job, j, 0)
    requires offset == |Flat(corpus, j)|
    modifies planner, planner.store`tables
    ensures planner.Idle() && !r.Died?
    ensures r.Finished? ==> TablesValid(planner.store.tables, job, j + 1, 0)
    ensures r.Refused? ==> planner.store.tables == old(planner.store.tables) && !Plannable(Flat(corpus, j + 1))
  {
    hide TablesValid, Plannable, IdSet, Polygons, StratumSizes;
    ghost var before := planner.store.tables;
    ghost var seen := Flat(corpus, j);
    var rows := corpus[j].rows;
    StartPlanning(before, job, j);
    planner.Begin();
    var rowCount := 0;
    while rowCount < |rows|
      invariant rowCount <= |rows|
      invariant planner.Mirrors() && planner.inTransaction && planner.Describes(seen + rows[..rowCount])
      invariant planner.store.tables == before
      invariant planner.working.progress == before.progress && planner.working.candidates == before.candidates
    {
      var length: nat :| 1 <= length <= batchSize && length <= |rows| - rowCount by {
        assert 1 <= 1 <= batchSize && 1 <= |rows| - rowCount;
      }
      var batch := rows[rowCount..rowCount + length];
      SplitBatch(seen, rows, rowCount, length);
      var ok := planner.Observe(batch, seen + rows[..rowCount]);
      if !ok {
        planner.Rollback();
        PrefixRefused(seen, rows, rowCount + length);
        return Refused("sampling input is invalid");
      }
      rowCount := rowCount + length;
    }
    assert seen + rows[..|rows|] == Flat(corpus, j + 1);
    PlanCommits(before, planner.working, job, j);
    planner.FinishPlanningShard(corpus[j].shardKey, rowCount, offset);
    r := Finished;
  }

  lemma StartPlanning(t: Tables, job: Job, j: nat)
    requires CollisionFree(job.ranks) && j < |job.corpus| && TablesValid(t, job, j, 0)
    ensures TablesDescribe(t, Flat(job.corpus, j)) && "" !in t.polygonMetadata
    ensures Flat(job.corpus, j) + job.corpus[j].rows[..0] == Flat(job.corpus, j)
  {
    NoEmptyPolygon(Flat(job.corpus, j));
  }

  lemma {:induction false} NoEmptyPolygon(rows: seq<Row>)
    requires AllAccepted(rows)
    ensures "" !in Polygons(rows)
  {
    if rows != [] { NoEmptyPolygon(rows[..|rows| - 1]); }
  }

  lemma SplitBatch(seen: seq<Row>, rows: seq<Row>, at: nat, length: nat)
    requires at + length <= |rows|
    ensures (seen + rows[..at]) + rows[at..at + length] == seen + rows[..at + length]
  {
    assert rows[..at] + rows[at..at + length] == rows[..at + length];
  }

  lemma PrefixRefused(seen: seq<Row>, rows: seq<Row>, upto: nat)
    requires upto <= |rows| && !Plannable(seen + rows[..upto])
    ensures !Plannable(seen + rows)
  {
    assert (seen + rows[..upto]) + rows[upto..] == seen + rows;
    if Plannable(seen + rows) { PlannablePrefix(seen + rows[..upto], rows[upto..]); }
  }

  // ----- Retention -----

  /** Where a retained row lives. */
  datatype Origin = Origin(shardKey: string, rowIndex: nat)

  ghost function OriginAt(job: Job): nat -> Origin
    requires JobReady(job)
  {
    (g: nat) => var l := LocatorAt(job, g); Origin(l.shardKey, l.rowIndex)
  }

  /** The heaps hold the quota-best of the given rows. */
  ghost predicate HeapsOf(job: Job, heaps: map<Cell, seq<Candidate<Origin>>>, scanned: set<nat>)
    requires JobReady(job)
  {
    HeapsHold(heaps, JobPlan(job).quotas, Rows(job.corpus), scanned, JobKey(job), OriginAt(job))
  }

  lemma RowInShard(job: Job, j: nat, i: nat)
    requires JobReady(job) && j < |job.corpus| && i < |job.corpus[j].rows|
    ensures var g := |Flat(job.corpus, j)| + i;
      && g < |Rows(job.corpus)| && Rows(job.corpus)[g] == job.corpus[j].rows[i]
      && (Located(Rows(job.corpus)[g]) || Rows(job.corpus)[g].coordinates.Missing?)
      && ShardOf(job.corpus, |job.corpus|, g) == j
  {
    GlobalIndex(job.corpus, j, i);
    ShardLength(job.corpus, j);
    ShardOfOffset(job.corpus, |job.corpus|, j, |Flat(job.corpus, j)| + i);
    assert RowAccepted(Rows(job.corpus)[|Flat(job.corpus, j)| + i]);
  }

  /** The candidate tuple and the ledger entry of one located row. */
  lemma RowCandidate(job: Job, j: nat, i: nat)
    requires JobReady(job) && j < |job.corpus| && i < |job.corpus[j].rows| && Located(job.corpus[j].rows[i])
    ensures var row := job.corpus[j].rows[i]; var g := |Flat(job.corpus, j)| + i; var plan := JobPlan(job);
      && row.polygonId in plan.polygonOrder && row.polygonId in plan.polygonMetadata
      && plan.polygonMetadata[row.polygonId].cell == row.coordinates.cell
      && LocatorAt(job, g) == Locator(row.coordinates.cell, plan.polygonOrder[row.polygonId],
          job.ranks.sentence(row.sentenceId), g, job.corpus[j].shardKey, i)
      && Faithful(Candidate(plan.polygonOrder[row.polygonId], job.ranks.sentence(row.sentenceId), g,
          Origin(job.corpus[j].shardKey, i)), JobKey(job), OriginAt(job))
  {
    hide JobPlan, Flat, ShardOf, Rows, JobReady;
    RowInShard(job, j, i);
    JobPolygons(job, |Flat(job.corpus, j)| + i);
    LocatorOfRow(job, |Flat(job.corpus, j)| + i);
  }

  lemma NextScanned(g: nat)
    ensures UpTo(g + 1) == UpTo(g) + {g}
  {
  }

  /** One row of the retention scan: offer it to its heap and record the pending writes. */
  method RetainLedgerRow(
    corpus: seq<Source>, j: nat, i: nat, offset: nat, plan: Plan, ranks: Ranks,
    heaps: map<Cell, seq<Candidate<Origin>>>, deletes: seq<(Cell, nat)>, inserts: seq<Locator>,
    ghost job: Job, ghost candidates: set<Locator>, ghost start: nat)
    returns (heaps': map<Cell, seq<Candidate<Origin>>>, deletes': seq<(Cell, nat)>, inserts': seq<Locator>)
    requires JobReady(job) && job.corpus == corpus && job.ranks == ranks && plan == JobPlan(job)
    requires j < |corpus| && i < |corpus[j].rows| && offset == |Flat(corpus, j)|
    requires HeapsOf(job, heaps, UpTo(offset + i))
    requires BatchValid(job, candidates, start, offset + i, deletes, inserts)
    ensures HeapsOf(job, heaps', UpTo(offset + i + 1))
    ensures BatchValid(job, candidates, start, offset + i + 1, deletes', inserts')
  {
    hide JobReady, JobPlan, JobKey, LocatorAt, OriginAt, BatchValid, HeapsHold, Rows, Flat, ShardOf, Wanted, Faithful,
      UpTo, ChangeOf, Retained, ScannedIn, PendingDeletes, PendingInserts, KeyedByIndex, CollisionFree;
    var row := corpus[j].rows[i];
    var g := offset + i;
    RowInShard(job, j, i);
    NextScanned(g);
    if row.coordinates.Missing? {
      heaps', deletes', inserts' := heaps, deletes, inserts;
      SkipRow(heaps, plan.quotas, Rows(corpus), UpTo(g), JobKey(job), OriginAt(job), g);
      BatchSkips(job, candidates, start, g, deletes, inserts);
      return;
    }
    RowCandidate(job, j, i);
    var stratum := plan.polygonMetadata[row.polygonId].cell;
    if stratum !in plan.quotas {
      heaps', deletes', inserts' := heaps, deletes, inserts;
      SkipRow(heaps, plan.quotas, Rows(corpus), UpTo(g), JobKey(job), OriginAt(job), g);
      BatchSkips(job, candidates, start, g, deletes, inserts);
      return;
    }
    var order, rank := plan.polygonOrder[row.polygonId], ranks.sentence(row.sentenceId);
    var x := Candidate(order, rank, g, Origin(corpus[j].shardKey, i));
    UpToMembers(g);
    var change;
    heaps', change := RetainRow(heaps, plan.quotas, stratum, x, Rows(corpus), UpTo(g), JobKey(job), OriginAt(job));
    deletes' := PendingDeletes(deletes, stratum, change);
    inserts' := PendingInserts(inserts, Locator(stratum, order, rank, g, corpus[j].shardKey, i), change);
    OfferedChange(job, g, stratum, change);
    BatchOffers(job, candidates, start, g, deletes, inserts, stratum, change);
  }

  lemma OfferedChange<P>(job: Job, g: nat, c: Cell, change: Change<P>)
    requires JobReady(job) && c in JobPlan(job).quotas && KeyedByIndex(JobKey(job))
    requires ChangeOf(change,
      Retained(ScannedIn(Rows(job.corpus), UpTo(g), c), JobPlan(job).quotas[c], JobKey(job)),
      Retained(ScannedIn(Rows(job.corpus), UpTo(g) + {g}, c), JobPlan(job).quotas[c], JobKey(job)), g)
    ensures ChangeOf(change, Wanted(job, g, c), Wanted(job, g + 1, c), g)
  {
    hide ChangeOf, Retained, ScannedIn, UpTo, JobPlan, JobKey, JobReady, Rows, Flat, KeyedByIndex;
    NextScanned(g);
  }

  /** Shard `j` is the one being retained: all before it are marked, it is not. */
  ghost predicate UnderRetention(t: Tables, corpus: seq<Source>, j: nat)
    requires j < |corpus|
  {
    && RetainedBefore(t, corpus, j)
    && corpus[j].shardKey in t.progress && !t.progress[corpus[j].shardKey].retained
  }

  /** One batch: its rows in memory, then one commit. */
  method RetainBatch(
    planner: PersistentPlanner, corpus: seq<Source>, j: nat, from: nat, batchEnd: nat, plan: Plan, ranks: Ranks,
    heaps: map<Cell, seq<Candidate<Origin>>>, offset: nat, ghost job: Job)
    returns (heaps': map<Cell, seq<Candidate<Origin>>>)
    requires planner.Idle()
    requires JobReady(job) && DistinctKeys(corpus) && job.corpus == corpus && job.ranks == ranks && plan == JobPlan(job)
    requires j < |corpus| && from <= batchEnd <= |corpus[j].rows| && offset == |Flat(corpus, j)|
    requires TablesValid(planner.store.tables, job, |corpus|, offset + from)
    requires HeapsOf(job, heaps, UpTo(offset + from))
    requires UnderRetention(planner.store.tables, corpus, j)
    modifies planner, planner.store`tables
    ensures planner.Idle() && UnderRetention(planner.store.tables, corpus, j)
    ensures TablesValid(planner.store.tables, job, |corpus|, offset + batchEnd)
    ensures HeapsOf(job, heaps', UpTo(offset + batchEnd))
    ensures SupersededDropped(
      job, old(planner.store.tables.candidates), planner.store.tables.candidates, offset + from, offset + batchEnd)
  {
    hide TablesValid, HeapsOf, BatchValid, LedgerValid, JobPlan, NoConflict, SupersededDropped;
    ghost var tables := planner.store.tables;
    PlanningDone(tables, job, offset + from);
    BatchStarts(job, tables.candidates, offset + from);
    planner.Begin();
    heaps' := heaps;
    var deletes: seq<(Cell, nat)> := [];
    var inserts: seq<Locator> := [];
    for i := from to batchEnd
      invariant planner.Mirrors() && planner.inTransaction && planner.working == planner.store.tables == tables
      invariant HeapsOf(job, heaps', UpTo(offset + i))
      invariant BatchValid(job, tables.candidates, offset + from, offset + i, deletes, inserts)
    {
      heaps', deletes, inserts := RetainLedgerRow(
        corpus, j, i, offset, plan, ranks, heaps', deletes, inserts, job, tables.candidates, offset + from);
    }
    ShardLength(corpus, j);
    BatchTablesValid(tables, job, j, offset + from, offset + batchEnd, deletes, inserts);
    planner.CommitBatch(corpus[j].shardKey, batchEnd, deletes, inserts);
  }

  function Max(a: nat, b: nat): nat {
    if a >= b then a else b
  }

  /** `_retain_shard`: continue behind the stored row offset, whatever the batch size. */
  method RetainShard(
    planner: PersistentPlanner, corpus: seq<Source>, j: nat, plan: Plan, ranks: Ranks,
    heaps: map<Cell, seq<Candidate<Origin>>>, batchSize: nat, mayCrash: bool, ghost job: Job)
    returns (r: Stage, heaps': map<Cell, seq<Candidate<Origin>>>)
    requires planner.Idle() && batchSize >= 1
    requires JobReady(job) && DistinctKeys(corpus) && job.corpus == corpus && job.ranks == ranks && plan == JobPlan(job)
    requires j < |corpus|
    requires |Flat(corpus, j)| <= planner.store.scanned && UnderRetention(planner.store.tables, corpus, j)
    requires TablesValid(planner.store.tables, job, |corpus|, planner.store.scanned)
    requires HeapsOf(job, heaps, UpTo(planner.store.scanned))
    modifies planner, planner.store`tables, planner.store`scanned
    ensures planner.Idle() && !r.Refused? && (!mayCrash ==> r.Finished?)
    ensures TablesValid(planner.store.tables, job, |corpus|, planner.store.scanned)
    ensures r.Finished? ==> RetainedBefore(planner.store.tables, corpus, j + 1)
    ensures r.Finished? ==>
      planner.store.scanned == |Flat(corpus, j + 1)| && HeapsOf(job, heaps', UpTo(planner.store.scanned))
  {
    hide TablesValid, HeapsOf, JobPlan, LedgerValid, ShardScanned;
    var store := planner.store;
    var source := corpus[j];
    ShardKeyPlanned(store.tables, job, store.scanned, j);
    ShardLength(corpus, j);
    var progress := store.tables.progress[source.shardKey];
    var offset := progress.rowOffset;
    var retainOffset := progress.retainOffset;
    StoredOffset(progress, corpus, j, store.scanned);
    heaps' := heaps;
    var local := 0;
    while local < |source.rows|
      invariant local <= |source.rows|
      invariant planner.Idle() && store.scanned == offset + Max(retainOffset, local)
      invariant UnderRetention(store.tables, corpus, j)
      invariant TablesValid(store.tables, job, |corpus|, store.scanned)
      invariant HeapsOf(job, heaps', UpTo(store.scanned))
    {
      var length: nat :| 1 <= length <= batchSize && length <= |source.rows| - local by {
        assert 1 <= 1 <= batchSize && 1 <= |source.rows| - local;
      }
      var batchStart, batchEnd := local, local + length;
      local := batchEnd;
      if batchEnd <= retainOffset {
        continue;
      }
      heaps' := RetainBatch(planner, corpus, j, Max(retainOffset, batchStart), batchEnd, plan, ranks, heaps', offset, job);
      store.scanned := offset + batchEnd;
      var alive := Survives(mayCrash);
      if !alive { return Died, heaps'; }
    }
    RetainedTablesValid(store.tables, job, j);
    planner.Begin();
    planner.FinishRetainingShard(source.shardKey);
    var alive := Survives(mayCrash);
    r := if alive then Finished else Died;
  }

  lemma StoredOffset(p: Progress, corpus: seq<Source>, j: nat, scanned: nat)
    requires j < |corpus| && ShardScanned(p, corpus, j, scanned) && !p.retained
    requires |Flat(corpus, j)| <= scanned
    ensures |Flat(corpus, j)| + p.retainOffset == scanned && scanned <= |Flat(corpus, j + 1)|
  {
    ShardLength(corpus, j);
  }

  // ----- Recovering the heaps -----

  function FromLocator(l: Locator): Candidate<Origin> {
    Candidate(l.polygonOrder, l.rank, l.globalIndex, Origin(l.shardKey, l.rowIndex))
  }

  lemma LocatorFaithful(job: Job, l: Locator, scanned: nat)
    requires JobReady(job) && Genuine(job, l, scanned)
    ensures Faithful(FromLocator(l), JobKey(job), OriginAt(job))
  {
    hide JobPlan, Flat, ShardOf, JobReady;
    LocatorOfRow(job, l.globalIndex);
  }

  lemma AnotherEntry(job: Job, candidates: set<Locator>, scanned: nat, l: Locator)
    requires JobReady(job) && l !in candidates && Genuine(job, l, scanned)
    requires forall k :: k in candidates ==> Genuine(job, k, scanned)
    ensures l.globalIndex !in LedgerRows(candidates)
    ensures LedgerRows(candidates + {l}) == LedgerRows(candidates) + {l.globalIndex}
  {
    hide LocatorAt, JobPlan, JobReady;
  }

  lemma RecoveredHeaps(job: Job, heaps: map<Cell, seq<Candidate<Origin>>>, candidates: set<Locator>, scanned: nat)
    requires JobReady(job) && LedgerValid(job, candidates, scanned)
    requires HeapsOf(job, heaps, LedgerRows(candidates))
    ensures HeapsOf(job, heaps, UpTo(scanned))
  {
    hide JobPlan, JobKey, OriginAt, Holds, Retained, LedgerRows, ScannedIn, LedgerValid, JobReady;
    forall c | c in JobPlan(job).quotas
      ensures HoldsBest(heaps[c], ScannedIn(Rows(job.corpus), UpTo(scanned), c), JobPlan(job).quotas[c], JobKey(job), OriginAt(job))
    {
      LedgerKeepsWanted(job, candidates, scanned, c);
      assert HoldsBest(heaps[c], ScannedIn(Rows(job.corpus), LedgerRows(candidates), c), JobPlan(job).quotas[c],
        JobKey(job), OriginAt(job));
    }
  }

  /** Every `(stratum, global_index)` in the heaps. */
  function KeepSet(heaps: map<Cell, seq<Candidate<Origin>>>): set<(Cell, nat)> {
    set c, i | c in heaps && 0 <= i < |heaps[c]| :: (c, heaps[c][i].index)
  }

  lemma KeepSetWanted(job: Job, heaps: map<Cell, seq<Candidate<Origin>>>, scanned: nat)
    requires JobReady(job) && HeapsOf(job, heaps, UpTo(scanned))
    ensures KeepsWanted(job, KeepSet(heaps), scanned)
  {
    hide JobPlan, JobKey, OriginAt, Retained, ScannedIn, JobReady, Faithful;
    forall c, g ensures (c, g) in KeepSet(heaps) <==> c in JobPlan(job).quotas && g in Wanted(job, scanned, c) {
      if c in JobPlan(job).quotas {
        assert HoldsBest(heaps[c], ScannedIn(Rows(job.corpus), UpTo(scanned), c), JobPlan(job).quotas[c],
          JobKey(job), OriginAt(job));
        if g in Wanted(job, scanned, c) {
          assert HasIndex(heaps[c], g);
        }
      }
    }
  }

  /** `compact_candidates(heaps)`. */
  method Compact(planner: PersistentPlanner, heaps: map<Cell, seq<Candidate<Origin>>>, ghost job: Job)
    requires planner.Idle() && JobReady(job)
    requires TablesValid(planner.store.tables, job, |job.corpus|, planner.store.scanned)
    requires HeapsOf(job, heaps, UpTo(planner.store.scanned))
    modifies planner, planner.store`tables
    ensures planner.Idle()
    ensures TablesValid(planner.store.tables, job, |job.corpus|, planner.store.scanned)
    ensures LedgerExact(job, planner.store.tables.candidates, planner.store.scanned)
  {
    assert CollisionFree(job.ranks);
    hide HeapsOf, JobReady, KeepSet, KeepsWanted, LedgerExact;
    KeepSetWanted(job, heaps, planner.store.scanned);
    CompactedTablesValid(planner.store.tables, job, planner.store.scanned, KeepSet(heaps));
    planner.CompactCandidates(KeepSet(heaps));
  }

  lemma GenuineFacts(job: Job, l: Locator, scanned: nat)
    requires JobReady(job) && Genuine(job, l, scanned)
    ensures l.globalIndex < |Rows(job.corpus)| && Rows(job.corpus)[l.globalIndex].coordinates == InCell(l.stratum)
    ensures l.stratum in JobPlan(job).quotas
  {
  }

  /** Reading the ledger in any order: superseded entries lose to the rows that beat them. */
  method RecoverHeaps(candidates: set<Locator>, plan: Plan, ghost job: Job, ghost scanned: nat)
    returns (heaps: map<Cell, seq<Candidate<Origin>>>)
    requires JobReady(job) && plan == JobPlan(job) && LedgerValid(job, candidates, scanned)
    ensures HeapsOf(job, heaps, UpTo(scanned))
  {
    hide HeapsHold, JobReady, JobPlan, JobKey, OriginAt, Faithful, LocatorAt, Genuine, LedgerRows, ChangeOf, Wanted,
      Retained, ScannedIn, KeyedByIndex, CollisionFree, Rows, Flat;
    heaps := map c | c in plan.quotas :: [];
    NoHeaps(job);
    var left := candidates;
    ghost var done: set<Locator> := {};
    while left != {}
      invariant left <= candidates && done == candidates - left
      invariant HeapsOf(job, heaps, LedgerRows(done))
      decreases |left|
    {
      var l :| l in left;
      GenuineFacts(job, l, scanned);
      LocatorFaithful(job, l, scanned);
      AnotherEntry(job, done, scanned, l);
      if l.stratum in plan.quotas {
        var change;
        heaps, change := RetainRow(heaps, plan.quotas, l.stratum, FromLocator(l), Rows(job.corpus),
          LedgerRows(done), JobKey(job), OriginAt(job));
      }
      left := left - {l};
      done := done + {l};
    }
    assert done == candidates;
    RecoveredHeaps(job, heaps, candidates, scanned);
  }

  /** `_heaps_from_database`. */
  method HeapsFromDatabase(planner: PersistentPlanner, plan: Plan, ghost job: Job)
    returns (heaps: map<Cell, seq<Candidate<Origin>>>)
    requires planner.Idle() && JobReady(job) && plan == JobPlan(job)
    requires TablesValid(planner.store.tables, job, |job.corpus|, planner.store.scanned)
    modifies planner, planner.store`tables
    ensures planner.Idle()
    ensures TablesValid(planner.store.tables, job, |job.corpus|, planner.store.scanned)
    ensures HeapsOf(job, heaps, UpTo(planner.store.scanned))
    ensures LedgerExact(job, planner.store.tables.candidates, planner.store.scanned)
  {
    assert CollisionFree(job.ranks);
    hide HeapsOf, JobReady, JobPlan, LedgerExact, TablesValid, LedgerValid;
    PlanningDone(planner.store.tables, job, planner.store.scanned);
    heaps := RecoverHeaps(planner.working.candidates, plan, job, planner.store.scanned);
    Compact(planner, heaps, job);
  }

  lemma NoHeaps(job: Job)
    requires JobReady(job)
    ensures LedgerRows({}) == {}
    ensures HeapsOf(job, map c | c in JobPlan(job).quotas :: [], {})
  {
    JobKeyByIndex(job);
    EmptyHeapsHold(JobPlan(job).quotas, Rows(job.corpus), JobKey(job), OriginAt(job));
  }

  // ----- Materialization -----

  /** The cache has both files of the shard, and the metadata names its identity and exactly
      these locators. */
  ghost predicate EntryCurrent(
    rows: map<string, seq<Row>>, metadata: map<string, CacheMetadata>, source: Source, locators: seq<Locator>)
  {
    && source.shardKey in rows && source.shardKey in metadata
    && metadata[source.shardKey] == CacheMetadata(source.shardKey, source.identity, |locators|, locators)
  }

  lemma RowsPerLocator(job: Job, j: nat)
    requires JobReady(job) && DistinctKeys(job.corpus) && j < |job.corpus|
    ensures |ShardRows(job, j)| == |JobLocators(job, j)|
  {
    hide JobLocators, JobReady;
    JobLocatorsInRange(job, j);
  }

  /** A current entry holds what reading the shard would give. */
  lemma CurrentIsRight(
    rows: map<string, seq<Row>>, metadata: map<string, CacheMetadata>, rowsTarget: map<string, nat>,
    metadataTarget: map<string, nat>, source: Source, locators: seq<Locator>, job: Job, j: nat)
    requires JobReady(job) && DistinctKeys(job.corpus) && j < |job.corpus| && source == job.corpus[j]
    requires locators == JobLocators(job, j) && EntryCurrent(rows, metadata, source, locators)
    requires ShardCacheValid(job, j, rows, metadata, rowsTarget, metadataTarget)
    ensures rows[source.shardKey] == ShardRows(job, j) && |ShardRows(job, j)| == |locators|
  {
    hide ShardRows, JobLocators, JobReady;
    CacheHit(job, j, metadataTarget[source.shardKey], rowsTarget[source.shardKey]);
    RowsPerLocator(job, j);
  }

  /** `_load_materialized_rows`: an entry counts only for this identity and these locators. */
  method LoadCached(store: SamplingStore, source: Source, locators: seq<Locator>, ghost job: Job, ghost j: nat)
    returns (r: Option<seq<Row>>)
    requires JobReady(job) && DistinctKeys(job.corpus) && j < |job.corpus| && source == job.corpus[j]
    requires locators == JobLocators(job, j)
    requires ShardCacheValid(job, j, store.cachedRows, store.cachedMetadata, store.rowsTarget, store.metadataTarget)
    ensures r.Some? ==> source.shardKey in store.cachedRows && r.value == store.cachedRows[source.shardKey]
    ensures r.Some? ==> r.value == ShardRows(job, j)
    ensures r.Some? <==> EntryCurrent(store.cachedRows, store.cachedMetadata, source, locators)
  {
    hide ShardRows, JobLocators, JobReady, ShardCacheValid;
    var key := source.shardKey;
    if key !in store.cachedRows || key !in store.cachedMetadata {
      return None;
    }
    var meta := store.cachedMetadata[key];
    if meta.shardKey != key || meta.identity != source.identity || meta.rowCount != |locators| || meta.locators != locators {
      return None;
    }
    CurrentIsRight(store.cachedRows, store.cachedMetadata, store.rowsTarget, store.metadataTarget, source, locators, job, j);
    if |store.cachedRows[key]| != |locators| {
      return None;
    }
    return Some(store.cachedRows[key]);
  }

  /** `_write_materialized_rows`: the row file first, then its metadata. */
  method WriteCached(
    store: SamplingStore, source: Source, locators: seq<Locator>, rows: seq<Row>, mayCrash: bool,
    ghost job: Job, ghost j: nat)
    returns (alive: bool)
    requires JobReady(job) && DistinctKeys(job.corpus) && j < |job.corpus| && source == job.corpus[j]
    requires locators == JobLocators(job, j) && rows == ShardRows(job, j)
    requires CacheValid(job, store.cachedRows, store.cachedMetadata, store.rowsTarget, store.metadataTarget)
    modifies store`cachedRows, store`cachedMetadata, store`rowsTarget, store`metadataTarget
    ensures CacheValid(job, store.cachedRows, store.cachedMetadata, store.rowsTarget, store.metadataTarget)
    ensures !mayCrash ==> alive
    ensures alive ==> EntryCurrent(store.cachedRows, store.cachedMetadata, source, locators)
  {
    hide ShardRows, JobLocators, JobReady;
    var key := source.shardKey;
    assert job.(target := job.target) == job;
    RowFileWritten(job, j, store.cachedRows, store.cachedMetadata, store.rowsTarget, store.metadataTarget);
    store.cachedRows := store.cachedRows[key := rows];
    store.rowsTarget := store.rowsTarget[key := job.target];
    alive := Survives(mayCrash);
    if !alive { return; }
    var meta := CacheMetadata(key, source.identity, |locators|, locators);
    MetadataFileWritten(job, j, store.cachedRows, store.cachedMetadata, store.rowsTarget, store.metadataTarget, meta);
    store.cachedMetadata := store.cachedMetadata[key := meta];
    store.metadataTarget := store.metadataTarget[key := job.target];
    alive := Survives(mayCrash);
  }

  lemma RowFileWritten(
    job: Job, j: nat, rows: map<string, seq<Row>>, metadata: map<string, CacheMetadata>,
    rowsTarget: map<string, nat>, metadataTarget: map<string, nat>)
    requires JobReady(job) && DistinctKeys(job.corpus) && j < |job.corpus|
    requires CacheValid(job, rows, metadata, rowsTarget, metadataTarget)
    ensures CacheValid(job, rows[job.corpus[j].shardKey := ShardRows(job, j)], metadata,
      rowsTarget[job.corpus[j].shardKey := job.target], metadataTarget)
    ensures RowsCached(job, j, job.target, ShardRows(job, j))
  {
    hide ShardRows, JobLocators;
    assert job.(target := job.target) == job;
    var key := job.corpus[j].shardKey;
    var rows', rowsTarget' := rows[key := ShardRows(job, j)], rowsTarget[key := job.target];
    forall k | 0 <= k < |job.corpus| ensures ShardCacheValid(job, k, rows', metadata, rowsTarget', metadataTarget) {
      assert ShardCacheValid(job, k, rows, metadata, rowsTarget, metadataTarget);
    }
  }

  lemma MetadataFileWritten(
    job: Job, j: nat, rows: map<string, seq<Row>>, metadata: map<string, CacheMetadata>,
    rowsTarget: map<string, nat>, metadataTarget: map<string, nat>, meta: CacheMetadata)
    requires JobReady(job) && DistinctKeys(job.corpus) && j < |job.corpus|
    requires CacheValid(job, rows, metadata, rowsTarget, metadataTarget)
    requires var key := job.corpus[j].shardKey; key in rows && key in rowsTarget && rowsTarget[key] == job.target
    requires meta.locators == JobLocators(job, j)
    ensures CacheValid(job, rows, metadata[job.corpus[j].shardKey := meta], rowsTarget,
      metadataTarget[job.corpus[j].shardKey := job.target])
  {
    hide ShardRows, JobLocators;
    assert job.(target := job.target) == job;
    var key := job.corpus[j].shardKey;
    var metadata', metadataTarget' := metadata[key := meta], metadataTarget[key := job.target];
    forall k | 0 <= k < |job.corpus| ensures ShardCacheValid(job, k, rows, metadata', rowsTarget, metadataTarget') {
      assert ShardCacheValid(job, k, rows, metadata, rowsTarget, metadataTarget);
    }
  }

  /** The wanted rows of one shard, from the cache or from the source. */
  method MaterializeShard(
    store: SamplingStore, source: Source, locators: seq<Locator>, mayCrash: bool, ghost job: Job, ghost j: nat)
    returns (alive: bool, rows: seq<Row>)
    requires JobReady(job) && DistinctKeys(job.corpus) && j < |job.corpus| && source == job.corpus[j]
    requires locators == JobLocators(job, j)
    requires CacheValid(job, store.cachedRows, store.cachedMetadata, store.rowsTarget, store.metadataTarget)
    modifies store`cachedRows, store`cachedMetadata, store`rowsTarget, store`metadataTarget
    ensures CacheValid(job, store.cachedRows, store.cachedMetadata, store.rowsTarget, store.metadataTarget)
    ensures (!mayCrash ==> alive) && (alive ==> rows == ShardRows(job, j))
    // An entry that is current is used as it is, and the next run finds the shard in the cache.
    ensures locators != [] && old(EntryCurrent(store.cachedRows, store.cachedMetadata, source, locators)) ==>
      && alive && rows == old(store.cachedRows[source.shardKey])
      && store.cachedRows == old(store.cachedRows) && store.cachedMetadata == old(store.cachedMetadata)
    ensures alive && locators != [] ==> EntryCurrent(store.cachedRows, store.cachedMetadata, source, locators)
  {
    hide JobReady, ShardCacheValid, JobLocators;
    RowsPerLocator(job, j);
    if locators != [] {
      assert ShardCacheValid(job, j, store.cachedRows, store.cachedMetadata, store.rowsTarget, store.metadataTarget);
      var cached := LoadCached(store, source, locators, job, j);
      if cached.Some? {
        return true, cached.value;
      }
    }
    JobLocatorsInRange(job, j);
    rows := ReadShard(source.rows, locators);
    alive := true;
    if rows != [] {
      alive := WriteCached(store, source, locators, rows, mayCrash, job, j);
    }
  }

  lemma ShardsDone(job: Job, j: nat)
    requires JobReady(job) && DistinctKeys(job.corpus) && j < |job.corpus|
    ensures OfShards(FinalLedger(job), ShardKeys(job.corpus, j + 1))
      == OfShards(FinalLedger(job), ShardKeys(job.corpus, j)) + InShard(FinalLedger(job), job.corpus[j].shardKey)
    ensures forall l :: l in OfShards(FinalLedger(job), ShardKeys(job.corpus, j)) ==> l.shardKey != job.corpus[j].shardKey
  {
    hide FinalLedger, JobReady;
    KeysOfPrefix(job.corpus, j);
  }

  lemma AllShardsDone(job: Job)
    requires JobReady(job)
    ensures OfShards(FinalLedger(job), ShardKeys(job.corpus, |job.corpus|)) == FinalLedger(job)
    ensures OfShards(FinalLedger(job), ShardKeys(job.corpus, 0)) == {}
  {
    hide FinalLedger, JobReady, JobPlan, Wanted, LocatorAt;
    KeysOfPrefix(job.corpus, |job.corpus|);
    forall l | l in FinalLedger(job) ensures l.shardKey in ShardKeys(job.corpus, |job.corpus|) {
      FinalLocator(job, l);
    }
  }

  /** The heaps list the wanted rows of the first `j` shards. */
  ghost predicate HeldUpTo(job: Job, heaps: map<Cell, seq<Candidate<Row>>>, j: nat)
    requires JobReady(job) && j <= |job.corpus|
  {
    HeldBy(job, heaps, OfShards(FinalLedger(job), ShardKeys(job.corpus, j)))
  }

  lemma HeldAtFirst(job: Job)
    requires JobReady(job)
    ensures HeldUpTo(job, map c | c in JobPlan(job).quotas :: [], 0)
  {
    hide JobReady, JobPlan, HeldBy, FinalLedger, OfShards, ShardKeys;
    NothingHeld(job);
    AllShardsDone(job);
  }

  lemma HeldAtLast(job: Job, heaps: map<Cell, seq<Candidate<Row>>>)
    requires JobReady(job) && HeldUpTo(job, heaps, |job.corpus|)
    ensures CollisionFree(job.ranks) && ListsRetained(heaps, Rows(job.corpus), JobPlan(job), job.ranks)
  {
    assert CollisionFree(job.ranks);
    hide JobReady, JobPlan, HeldBy, FinalLedger, OfShards, ShardKeys, ListsRetained, CollisionFree;
    AllShardsDone(job);
    AllHeld(job, heaps);
  }

  /** The rows of one more shard. */
  method MaterializeNext(
    store: SamplingStore, corpus: seq<Source>, j: nat, heaps: map<Cell, seq<Candidate<Row>>>, mayCrash: bool, ghost job: Job)
    returns (alive: bool, heaps': map<Cell, seq<Candidate<Row>>>)
    requires JobReady(job) && DistinctKeys(corpus) && job.corpus == corpus && j < |corpus|
    requires store.tables.candidates == FinalLedger(job) && HeldUpTo(job, heaps, j)
    requires CacheValid(job, store.cachedRows, store.cachedMetadata, store.rowsTarget, store.metadataTarget)
    modifies store`cachedRows, store`cachedMetadata, store`rowsTarget, store`metadataTarget
    ensures CacheValid(job, store.cachedRows, store.cachedMetadata, store.rowsTarget, store.metadataTarget)
    ensures (!mayCrash ==> alive) && (alive ==> HeldUpTo(job, heaps', j + 1))
  {
    hide JobReady, JobPlan, HeldBy, FinalLedger, CacheValid, ShardRows, OfShards, ShardKeys, InShard, OneEntryPerRow,
      DistinctKeys, Rows, Flat, ShardLocators;
    FinalOnePerRow(job);
    heaps' := heaps;
    var locators := CollectLocators(store.tables.candidates, corpus[j].shardKey);
    LocatorsOfFinal(job, j);
    var rows;
    alive, rows := MaterializeShard(store, corpus[j], locators, mayCrash, job, j);
    if alive {
      ShardsDone(job, j);
      ProcessedAreFinal(job, j);
      heaps' := AppendRows(heaps, locators, rows, job, j, OfShards(FinalLedger(job), ShardKeys(corpus, j)));
    }
  }

  lemma LocatorsOfFinal(job: Job, j: nat)
    requires JobReady(job) && DistinctKeys(job.corpus) && j < |job.corpus|
    ensures OneEntryPerRow(FinalLedger(job))
    ensures JobLocators(job, j) == ShardLocators(FinalLedger(job), job.corpus[j].shardKey)
  {
    hide JobReady, FinalLedger, OneEntryPerRow, ShardLocators, DistinctKeys;
    FinalOnePerRow(job);
  }

  /** `_materialize_heaps`: every mix of cached and uncached shards gives the retained rows. */
  method Materialize(store: SamplingStore, corpus: seq<Source>, plan: Plan, mayCrash: bool, ghost job: Job)
    returns (alive: bool, heaps: map<Cell, seq<Candidate<Row>>>)
    requires JobReady(job) && DistinctKeys(corpus) && job.corpus == corpus && plan == JobPlan(job)
    requires store.tables.candidates == FinalLedger(job)
    requires CacheValid(job, store.cachedRows, store.cachedMetadata, store.rowsTarget, store.metadataTarget)
    modifies store`cachedRows, store`cachedMetadata, store`rowsTarget, store`metadataTarget
    ensures CacheValid(job, store.cachedRows, store.cachedMetadata, store.rowsTarget, store.metadataTarget)
    ensures (!mayCrash ==> alive) && (alive ==> ListsRetained(heaps, Rows(corpus), plan, job.ranks))
  {
    assert CollisionFree(job.ranks);
    hide JobReady, JobPlan, HeldUpTo, FinalLedger, CacheValid, ListsRetained, DistinctKeys, Rows, CollisionFree;
    heaps := map c | c in plan.quotas :: [];
    HeldAtFirst(job);
    alive := true;
    for j := 0 to |corpus|
      invariant store.tables.candidates == FinalLedger(job)
      invariant CacheValid(job, store.cachedRows, store.cachedMetadata, store.rowsTarget, store.metadataTarget)
      invariant HeldUpTo(job, heaps, j)
    {
      alive, heaps := MaterializeNext(store, corpus, j, heaps, mayCrash, job);
      if !alive { return; }
    }
    HeldAtLast(job, heaps);
  }

  lemma ProcessedAreFinal(job: Job, j: nat)
    requires JobReady(job) && j <= |job.corpus|
    ensures OfShards(FinalLedger(job), ShardKeys(job.corpus, j)) <= FinalLedger(job)
  {
  }

  // ----- Whole phases -----

  /** A store working on `job`; `base` is its `state.json` up to the phase. */
  ghost predicate WorkingOn(d: Durable, world: World, job: Job, base: StateRecord)
    requires Sound(world)
  {
    && d.state.Some? && DurableValid(d, world) && JobIn(d, world) == job
    && d.state.value.(phase := base.phase) == base
  }

  /** A run of `job` between two durable writes. */
  ghost predicate Running(
    store: SamplingStore, planner: PersistentPlanner, world: World, job: Job, base: StateRecord)
    requires Sound(world)
    reads store, planner
  {
    planner.store == store && planner.Idle() && WorkingOn(store.Snapshot(), world, job, base)
  }

  /** What a stage needs of a run ... */
  lemma RunningTables(store: SamplingStore, planner: PersistentPlanner, world: World, job: Job, base: StateRecord)
    requires Sound(world) && Running(store, planner, world, job, base)
    ensures CollisionFree(job.ranks) && DistinctKeys(job.corpus)
    ensures planner.store == store && planner.Idle() && WorkingOn(store.Snapshot(), world, job, base)
    ensures store.state.Some? && store.databaseExists
    ensures TablesValid(store.tables, job, store.planned, store.scanned)
    ensures CacheValid(job, store.cachedRows, store.cachedMetadata, store.rowsTarget, store.metadataTarget)
  {
    hide TablesValid, CacheValid;
  }

  /** ... and what it must leave behind. */
  lemma StillRunning(
    before: Durable, store: SamplingStore, planner: PersistentPlanner, world: World, job: Job, base: StateRecord)
    requires Sound(world) && WorkingOn(before, world, job, base)
    requires store.state.Some? && before.state.Some? && store.ordered == before.ordered && store.databaseExists
    requires store.state.value.(phase := base.phase) == before.state.value.(phase := base.phase)
    requires CollisionFree(job.ranks) && DistinctKeys(job.corpus)
    requires planner.store == store && planner.Idle()
    requires TablesValid(store.tables, job, store.planned, store.scanned)
    requires CacheValid(job, store.cachedRows, store.cachedMetadata, store.rowsTarget, store.metadataTarget)
    ensures Running(store, planner, world, job, base)
  {
    hide TablesValid, CacheValid, DistinctKeys, ShardMap, AscendingKeys;
  }

  method SumRowCounts(progress: map<string, Progress>) returns (total: nat)
    ensures total == Sum(RowCounts(progress))
  {
    SumNonNegative(RowCounts(progress));
    total := SumValues(RowCounts(progress));
  }

  lemma PlannedShard(t: Tables, job: Job, planned: nat, scanned: nat, j: nat)
    requires CollisionFree(job.ranks) && TablesValid(t, job, planned, scanned) && j < |job.corpus|
    ensures planned <= |job.corpus| && (planned < |job.corpus| ==> scanned == 0)
    ensures job.corpus[j].shardKey in t.progress <==> j < planned
    ensures j < planned ==>
      var p := t.progress[job.corpus[j].shardKey]; p.planned && p.rowCount == |job.corpus[j].rows|
  {
    hide LedgerValid, TablesDescribe, ShardScanned;
    assert ShardPlanned(t, job.corpus, planned, j);
  }

  /** The stored row counts add up to the next shard's offset. */
  lemma PlannedTotal(t: Tables, job: Job, planned: nat, scanned: nat)
    requires CollisionFree(job.ranks) && DistinctKeys(job.corpus) && TablesValid(t, job, planned, scanned)
    ensures planned <= |job.corpus|
    ensures Sum(RowCounts(t.progress)) == |Flat(job.corpus, planned)|
  {
    hide LedgerValid, TablesDescribe, ShardScanned;
    PlannedBound(t, job.corpus, planned);
    forall j | 0 <= j < planned
      ensures job.corpus[j].shardKey in t.progress && t.progress[job.corpus[j].shardKey].rowCount == |job.corpus[j].rows|
    {
      PlannedShard(t, job, planned, scanned, j);
    }
    ProgressTotal(t.progress, job.corpus, planned);
  }

  /** Scan the next shard and record the progress. */
  method PlanFresh(
    store: SamplingStore, planner: PersistentPlanner, corpus: seq<Source>, j: nat, offset: nat, batchSize: nat,
    ghost world: World, ghost job: Job, ghost base: StateRecord)
    returns (r: Stage)
    requires Sound(world) && batchSize >= 1 && Running(store, planner, world, job, base)
    requires corpus == job.corpus && j < |corpus| && j == store.planned && offset == |Flat(corpus, j)|
    requires store.scanned == 0
    modifies planner, store`tables, store`planned
    ensures Running(store, planner, world, job, base) && !r.Died?
    ensures r.Finished? ==> store.planned == j + 1
    ensures r.Refused? ==> !Plannable(Rows(corpus))
  {
    hide Running, WorkingOn, TablesValid, CacheValid, Plannable, CollisionFree, DistinctKeys, Flat, Rows, Sound;
    RunningTables(store, planner, world, job, base);
    ghost var before := store.Snapshot();
    r := PlanShard(planner, corpus, j, offset, batchSize, job);
    if r.Refused? {
      RefusedPrefix(corpus, j + 1);
    } else {
      store.planned := j + 1;
    }
    StillRunning(before, store, planner, world, job, base);
  }

  /** A planned shard is exactly one whose scan is committed. */
  lemma RunningPlanned(
    store: SamplingStore, planner: PersistentPlanner, world: World, job: Job, base: StateRecord, j: nat)
    requires Sound(world) && Running(store, planner, world, job, base) && j < |job.corpus|
    ensures store.planned <= |job.corpus| && (store.planned < |job.corpus| ==> store.scanned == 0)
    ensures var key := job.corpus[j].shardKey;
      key in planner.working.progress && planner.working.progress[key].planned <==> j < store.planned
  {
    hide Running, WorkingOn, TablesValid, CacheValid, CollisionFree, Sound;
    RunningTables(store, planner, world, job, base);
    PlannedShard(store.tables, job, store.planned, store.scanned, j);
  }

  /** `state.json` is rewritten with a new phase; nothing else it says changes. */
  method WritePhase(
    store: SamplingStore, planner: PersistentPlanner, phase: Phase, mayCrash: bool,
    ghost world: World, ghost job: Job, ghost base: StateRecord)
    returns (alive: bool)
    requires Sound(world) && Running(store, planner, world, job, base)
    modifies store`state
    ensures Running(store, planner, world, job, base) && (!mayCrash ==> alive)
    ensures store.state.Some? && store.state.value.phase == phase
  {
    hide TablesValid, CacheValid, AscendingKeys, DistinctKeys, ShardMap, Resolve;
    RunningTables(store, planner, world, job, base);
    ghost var before := store.Snapshot();
    store.state := Some(store.state.value.(phase := phase));
    StillRunning(before, store, planner, world, job, base);
    alive := Survives(mayCrash);
  }

  /** The next shard of the planning loop: skipped when its scan is already committed. */
  method PlanNext(
    store: SamplingStore, planner: PersistentPlanner, corpus: seq<Source>, j: nat, offset: nat, batchSize: nat,
    mayCrash: bool, ghost world: World, ghost job: Job, ghost base: StateRecord)
    returns (r: Stage, next: nat)
    requires Sound(world) && batchSize >= 1 && Running(store, planner, world, job, base)
    requires corpus == job.corpus && j < |corpus| && j <= store.planned <= |corpus|
    requires offset == |Flat(corpus, store.planned)|
    modifies planner, store`tables, store`planned, store`state
    ensures Running(store, planner, world, job, base)
    ensures !mayCrash ==> !r.Died?
    ensures r.Finished? ==> j < store.planned <= |corpus| && next == |Flat(corpus, store.planned)|
    ensures r.Refused? ==> !Plannable(Rows(corpus))
  {
    hide Running, Plannable, Flat, Rows, Sound;
    RunningPlanned(store, planner, world, job, base, j);
    r, next := Finished, offset;
    if !(corpus[j].shardKey in planner.working.progress && planner.working.progress[corpus[j].shardKey].planned) {
      r := PlanFresh(store, planner, corpus, j, offset, batchSize, world, job, base);
      ShardLength(corpus, j);
      next := offset + |corpus[j].rows|;
      if r.Finished? {
        var alive := Survives(mayCrash);
        if alive {
          alive := WritePhase(store, planner, PhasePlanning, mayCrash, world, job, base);
        }
        r := if alive then Finished else Died;
      }
    }
  }

  /** Scan every shard that is not planned yet, in key order. */
  method PlanAll(
    store: SamplingStore, planner: PersistentPlanner, corpus: seq<Source>, batchSize: nat, mayCrash: bool,
    ghost world: World, ghost job: Job, ghost base: StateRecord)
    returns (r: Stage)
    requires Sound(world) && batchSize >= 1 && Running(store, planner, world, job, base) && corpus == job.corpus
    modifies planner, store`tables, store`planned, store`state
    ensures Running(store, planner, world, job, base)
    ensures (!mayCrash ==> !r.Died?) && (r.Finished? ==> store.planned == |corpus|)
    ensures r.Refused? ==> !Plannable(Rows(corpus))
  {
    var offset := StartOffset(store, planner, world, job, base);
    hide Running, Plannable;
    for j := 0 to |corpus|
      invariant Running(store, planner, world, job, base)
      invariant j <= store.planned <= |corpus| && offset == |Flat(corpus, store.planned)|
    {
      r, offset := PlanNext(store, planner, corpus, j, offset, batchSize, mayCrash, world, job, base);
      if !r.Finished? { return; }
    }
    r := Finished;
  }

  /** `sum(item[0] for item in progress.values())` is where the next shard starts. */
  method StartOffset(
    store: SamplingStore, planner: PersistentPlanner, ghost world: World, ghost job: Job, ghost base: StateRecord)
    returns (offset: nat)
    requires Sound(world) && Running(store, planner, world, job, base)
    ensures store.planned <= |job.corpus| && offset == |Flat(job.corpus, store.planned)|
  {
    hide Running, WorkingOn, TablesValid, CacheValid, CollisionFree, Sound;
    RunningTables(store, planner, world, job, base);
    PlannedTotal(store.tables, job, store.planned, store.scanned);
    offset := SumRowCounts(planner.working.progress);
  }

  lemma RefusedPrefix(corpus: seq<Source>, count: nat)
    requires count <= |corpus| && !Plannable(Flat(corpus, count))
    ensures !Plannable(Rows(corpus))
  {
    FlatPrefix(corpus, count, |corpus|);
    var rows, part := Rows(corpus), Flat(corpus, count);
    assert rows == part + rows[|part|..];
    if Plannable(rows) { PlannablePrefix(part, rows[|part|..]); }
  }

  /** Scan the rest of shard `j` and mark it retained. */
  method RetainRest(
    store: SamplingStore, planner: PersistentPlanner, corpus: seq<Source>, j: nat, plan: Plan, ranks: Ranks,
    heaps: map<Cell, seq<Candidate<Origin>>>, batchSize: nat, mayCrash: bool,
    ghost world: World, ghost job: Job, ghost base: StateRecord)
    returns (alive: bool, heaps': map<Cell, seq<Candidate<Origin>>>)
    requires Sound(world) && batchSize >= 1 && Running(store, planner, world, job, base)
    requires JobReady(job) && corpus == job.corpus && ranks == job.ranks && plan == JobPlan(job)
    requires j < |corpus| && store.planned == |corpus|
    requires |Flat(corpus, j)| <= store.scanned && UnderRetention(store.tables, corpus, j)
    requires HeapsOf(job, heaps, UpTo(store.scanned))
    modifies planner, store`tables, store`scanned
    ensures Running(store, planner, world, job, base) && (!mayCrash ==> alive)
    ensures alive ==> store.scanned == |Flat(corpus, j + 1)| && RetainedBefore(store.tables, corpus, j + 1)
    ensures alive ==> HeapsOf(job, heaps', UpTo(store.scanned))
  {
    hide Running, WorkingOn, TablesValid, CacheValid, JobReady, JobPlan, HeapsOf, CollisionFree, RetainedBefore, UnderRetention,
      DistinctKeys, Flat, Rows, UpTo, Sound;
    RunningTables(store, planner, world, job, base);
    ghost var before := store.Snapshot();
    var stage;
    stage, heaps' := RetainShard(planner, corpus, j, plan, ranks, heaps, batchSize, mayCrash, job);
    alive := stage.Finished?;
    StillRunning(before, store, planner, world, job, base);
  }

  /** Where the scan of shard `j` stands. */
  lemma RunningRetained(
    store: SamplingStore, planner: PersistentPlanner, world: World, job: Job, base: StateRecord, j: nat)
    requires Sound(world) && Running(store, planner, world, job, base) && j < |job.corpus|
    requires store.planned == |job.corpus| && RetainedBefore(store.tables, job.corpus, j)
    ensures job.corpus[j].shardKey in planner.working.progress
    ensures if planner.working.progress[job.corpus[j].shardKey].retained
      then |Flat(job.corpus, j + 1)| <= store.scanned && RetainedBefore(store.tables, job.corpus, j + 1)
      else UnderRetention(store.tables, job.corpus, j)
  {
    hide Running, WorkingOn, TablesValid, CacheValid, CollisionFree, ShardScanned, Flat, Sound;
    RunningTables(store, planner, world, job, base);
    ShardKeyPlanned(store.tables, job, store.scanned, j);
    if planner.working.progress[job.corpus[j].shardKey].retained {
      RetainedMeansScanned(planner.working.progress[job.corpus[j].shardKey], job.corpus, j, store.scanned);
    }
  }

  /** The next shard of the retention loop: skipped when it is marked retained. */
  method RetainNext(
    store: SamplingStore, planner: PersistentPlanner, corpus: seq<Source>, j: nat, plan: Plan, ranks: Ranks,
    heaps: map<Cell, seq<Candidate<Origin>>>, batchSize: nat, mayCrash: bool,
    ghost world: World, ghost job: Job, ghost base: StateRecord)
    returns (alive: bool, heaps': map<Cell, seq<Candidate<Origin>>>)
    requires Sound(world) && batchSize >= 1 && Running(store, planner, world, job, base)
    requires JobReady(job) && corpus == job.corpus && ranks == job.ranks && plan == JobPlan(job)
    requires j < |corpus| && store.planned == |corpus|
    requires |Flat(corpus, j)| <= store.scanned <= |Rows(corpus)| && RetainedBefore(store.tables, corpus, j)
    requires HeapsOf(job, heaps, UpTo(store.scanned))
    modifies planner, store`tables, store`scanned, store`state
    ensures Running(store, planner, world, job, base) && (!mayCrash ==> alive)
    ensures alive ==>
      |Flat(corpus, j + 1)| <= store.scanned <= |Rows(corpus)| && RetainedBefore(store.tables, corpus, j + 1)
    ensures alive ==> HeapsOf(job, heaps', UpTo(store.scanned))
  {
    hide Running, JobReady, JobPlan, HeapsOf, RetainedBefore, UnderRetention, Flat, UpTo, Sound;
    RunningRetained(store, planner, world, job, base, j);
    alive, heaps' := true, heaps;
    if !planner.working.progress[corpus[j].shardKey].retained {
      alive, heaps' := RetainRest(store, planner, corpus, j, plan, ranks, heaps, batchSize, mayCrash, world, job, base);
      FlatPrefix(corpus, j + 1, |corpus|);
      if alive {
        alive := WritePhase(store, planner, PhaseRetaining, mayCrash, world, job, base);
      }
    }
  }

  /** Rebuild the heaps of an interrupted retention phase. */
  method Recover(
    store: SamplingStore, planner: PersistentPlanner, plan: Plan, mayCrash: bool,
    ghost world: World, ghost job: Job, ghost base: StateRecord)
    returns (alive: bool, heaps: map<Cell, seq<Candidate<Origin>>>)
    requires Sound(world) && Running(store, planner, world, job, base)
    requires JobReady(job) && plan == JobPlan(job) && store.planned == |job.corpus|
    modifies planner, store`tables
    ensures Running(store, planner, world, job, base) && (!mayCrash ==> alive)
    ensures HeapsOf(job, heaps, UpTo(store.scanned))
    ensures |Flat(job.corpus, 0)| <= store.scanned <= |Rows(job.corpus)| && RetainedBefore(store.tables, job.corpus, 0)
  {
    hide Running, WorkingOn, TablesValid, CacheValid, JobReady, JobPlan, HeapsOf, CollisionFree, DistinctKeys, Sound;
    RunningTables(store, planner, world, job, base);
    ghost var before := store.Snapshot();
    heaps := HeapsFromDatabase(planner, plan, job);
    StillRunning(before, store, planner, world, job, base);
    ScannedBound(store.tables, job, store.scanned);
    alive := Survives(mayCrash);
  }

  /** Scan every shard that is not retained yet, from wherever the last run stopped, and
      compact: superseded candidates may be left in the ledger. */
  method RetainAll(
    store: SamplingStore, planner: PersistentPlanner, corpus: seq<Source>, plan: Plan, ranks: Ranks,
    batchSize: nat, mayCrash: bool, ghost world: World, ghost job: Job, ghost base: StateRecord)
    returns (alive: bool)
    requires Sound(world) && batchSize >= 1 && Running(store, planner, world, job, base)
    requires JobReady(job) && corpus == job.corpus && ranks == job.ranks && plan == JobPlan(job)
    requires store.planned == |corpus|
    modifies planner, store`tables, store`scanned, store`state
    ensures Running(store, planner, world, job, base) && (!mayCrash ==> alive)
    ensures alive ==> LedgerExact(job, store.tables.candidates, |Rows(corpus)|)
  {
    hide Running, WorkingOn, TablesValid, CacheValid, JobReady, JobPlan, HeapsOf, LedgerExact, Flat, UpTo, RetainedBefore, Sound;
    var heaps;
    alive, heaps := Recover(store, planner, plan, mayCrash, world, job, base);
    if !alive { return; }
    for j := 0 to |corpus|
      invariant Running(store, planner, world, job, base) && store.planned == |corpus|
      invariant |Flat(corpus, j)| <= store.scanned <= |Rows(corpus)| && RetainedBefore(store.tables, corpus, j)
      invariant HeapsOf(job, heaps, UpTo(store.scanned))
    {
      alive, heaps := RetainNext(
        store, planner, corpus, j, plan, ranks, heaps, batchSize, mayCrash, world, job, base);
      if !alive { return; }
    }
    CompactRunning(store, planner, heaps, world, job, base);
    alive := Survives(mayCrash);
  }

  method CompactRunning(
    store: SamplingStore, planner: PersistentPlanner, heaps: map<Cell, seq<Candidate<Origin>>>,
    ghost world: World, ghost job: Job, ghost base: StateRecord)
    requires Sound(world) && Running(store, planner, world, job, base) && JobReady(job)
    requires store.planned == |job.corpus| && HeapsOf(job, heaps, UpTo(store.scanned))
    modifies planner, store`tables
    ensures Running(store, planner, world, job, base)
    ensures LedgerExact(job, store.tables.candidates, store.scanned)
  {
    hide Running, WorkingOn, TablesValid, CacheValid, JobReady, JobPlan, HeapsOf, LedgerExact, DistinctKeys, Sound;
    RunningTables(store, planner, world, job, base);
    ghost var before := store.Snapshot();
    Compact(planner, heaps, job);
    StillRunning(before, store, planner, world, job, base);
  }

  lemma ScannedBound(t: Tables, job: Job, scanned: nat)
    requires CollisionFree(job.ranks) && TablesValid(t, job, |job.corpus|, scanned)
    ensures scanned <= |Rows(job.corpus)| && RetainedBefore(t, job.corpus, 0)
  {
  }

  lemma RetainedMeansScanned(p: Progress, corpus: seq<Source>, j: nat, scanned: nat)
    requires j < |corpus| && p.retained && ShardScanned(p, corpus, j, scanned)
    ensures |Flat(corpus, j + 1)| <= scanned
  {
  }

  // ----- Starting or resuming -----

  datatype Outcome = Completed | Crashed | Rejected(message: string)

  ghost predicate ShardsAccepted(shards: seq<FinalizedShard>) {
    && shards != []
    && (forall x :: x in shards ==> x.shardKey != "" && x.identity != "")
    && (forall i, j :: 0 <= i < j < |shards| ==> shards[i].shardKey != shards[j].shardKey)
  }

  /** What the stored state must say for a run to be let in. */
  ghost predicate StateAccepts(d: Durable, shards: seq<FinalizedShard>, target: int, seed: string) {
    if d.state.Some? then
      && d.state.value.seed == seed && d.state.value.target <= target
      && (forall x: FinalizedShard :: x in shards <==>
          x.shardKey in d.state.value.shards && d.state.value.shards[x.shardKey] == x.identity)
    else
      !d.databaseExists
  }

  ghost predicate Admissible(d: Durable, shards: seq<FinalizedShard>, target: int, seed: string, batchSize: int) {
    target >= 1 && batchSize >= 1 && seed != "" && ShardsAccepted(shards) && StateAccepts(d, shards, target, seed)
  }

  /** `_validate_shards`. */
  method ValidateShards(shards: seq<FinalizedShard>) returns (r: Result<seq<FinalizedShard>>)
    ensures r.Ok? <==> ShardsAccepted(shards)
    ensures r.Ok? ==> AscendingKeys(r.value) && SameShards(r.value, shards) && r.value != []
  {
    var sorted := SortShards(shards);
    if shards == [] {
      return Err("at least one finalized shard is required");
    }
    if sorted.None? {
      return Err("finalized shard keys must be unique");
    }
    assert shards[0] in sorted.value;
    for i := 0 to |sorted.value|
      invariant forall k :: 0 <= k < i ==> sorted.value[k].shardKey != "" && sorted.value[k].identity != ""
    {
      if sorted.value[i].shardKey == "" || sorted.value[i].identity == "" {
        assert sorted.value[i] in shards;
        return Err("finalized shard identity is required");
      }
    }
    return Ok(sorted.value);
  }

  lemma SameIdentities(ordered: seq<FinalizedShard>, shards: seq<FinalizedShard>, m: map<string, string>)
    requires AscendingKeys(ordered) && SameShards(ordered, shards)
    ensures ShardMap(ordered) == m ==>
      forall x: FinalizedShard :: x in shards <==> x.shardKey in m && m[x.shardKey] == x.identity
    ensures (forall x: FinalizedShard :: x in shards <==> x.shardKey in m && m[x.shardKey] == x.identity) ==>
      ShardMap(ordered) == m
  {
    forall x: FinalizedShard
      ensures x in shards <==> x.shardKey in ShardMap(ordered) && ShardMap(ordered)[x.shardKey] == x.identity
    {
      ShardMapMembers(ordered, x);
    }
    if forall x: FinalizedShard :: x in shards <==> x.shardKey in m && m[x.shardKey] == x.identity {
      forall k ensures k in m <==> k in ShardMap(ordered) {
        if k in m { assert FinalizedShard(k, m[k]) in shards; }
        if k in ShardMap(ordered) { assert FinalizedShard(k, ShardMap(ordered)[k]) in shards; }
      }
      forall k | k in m ensures m[k] == ShardMap(ordered)[k] {
        assert FinalizedShard(k, m[k]) in shards;
      }
    }
  }

  /** The checks against `state.json` and the database file. */
  method CheckState(store: SamplingStore, ordered: seq<FinalizedShard>, target: nat, seed: string, ghost shards: seq<FinalizedShard>)
    returns (r: Option<string>)
    requires AscendingKeys(ordered) && SameShards(ordered, shards)
    ensures r.None? <==> StateAccepts(store.Snapshot(), shards, target, seed)
    ensures r.None? && store.state.Some? ==> ShardMap(ordered) == store.state.value.shards
  {
    hide SameShards;
    if store.state.Some? {
      SameIdentities(ordered, shards, store.state.value.shards);
      if store.state.value.seed != seed { return Some("sampling state seed mismatch"); }
      if ShardMap(ordered) != store.state.value.shards { return Some("sampling shard identity mismatch"); }
      if target < store.state.value.target { return Some("sampling target cannot shrink"); }
    } else if store.databaseExists {
      return Some("sampling database exists without state.json");
    }
    return None;
  }

  lemma FreshRun(store: SamplingStore, planner: PersistentPlanner, world: World, job: Job, base: StateRecord)
    requires Sound(world) && planner.store == store && planner.Idle() && store.databaseExists
    requires store.tables == EmptyTables() && store.cachedRows == map[] && store.cachedMetadata == map[]
    requires store.planned == 0 && store.scanned == 0
    requires AscendingKeys(store.ordered) && store.ordered != []
    requires base.shards == ShardMap(store.ordered) && store.state == Some(base)
    requires job == Job(Resolve(store.ordered, world.content), world.hash(base.seed), base.target)
    ensures Running(store, planner, world, job, base)
  {
    AscendingIsDistinct(store.ordered, world.content);
    assert CollisionFree(world.hash(base.seed));
    assert Flat(job.corpus, 0) == [];
    hide JobReady, Sound, AscendingKeys;
    assert TablesDescribe(EmptyTables(), []);
    forall j | 0 <= j < |job.corpus| ensures ShardPlanned(EmptyTables(), job.corpus, 0, j) {}
  }

  /** The job one call asks for. */
  ghost function CallJob(world: World, ordered: seq<FinalizedShard>, target: nat, seed: string): Job {
    Job(Resolve(ordered, world.content), world.hash(seed), target)
  }

  function ClearedForGrowth(d: Durable): Durable {
    d.(tables := WithCandidatesCleared(d.tables), scanned := 0)
  }

  /** Both durable writes of a target growth leave a valid store. */
  lemma GrowthValid(d: Durable, world: World, target: nat)
    requires Sound(world) && d.state.Some? && DurableValid(d, world) && d.state.value.target <= target
    ensures DurableValid(ClearedForGrowth(d), world)
    ensures DurableValid(
      ClearedForGrowth(d).(state := Some(d.state.value.(target := target, phase := PhasePlanned))), world)
  {
    var job := JobIn(d, world);
    assert CollisionFree(job.ranks);
    hide TablesValid, CacheValid, CollisionFree, Sound, DistinctKeys, AscendingKeys, ShardMap, WithCandidatesCleared;
    ClearedTablesValid(d.tables, job, d.planned, d.scanned, job.target);
    ClearedTablesValid(d.tables, job, d.planned, d.scanned, target);
    assert job.(target := job.target) == job;
    CacheGrows(job, target, d.cachedRows, d.cachedMetadata, d.rowsTarget, d.metadataTarget);
  }

  /** The first run writes `state.json`; a larger target clears the candidates before it
      replaces the record, so a death in between leaves the smaller target's job. */
  method OpenState(
    store: SamplingStore, planner: PersistentPlanner, ordered: seq<FinalizedShard>, target: nat, seed: string,
    mayCrash: bool, ghost world: World)
    returns (alive: bool, ghost base: StateRecord)
    requires Sound(world) && planner.store == store && planner.Idle() && store.databaseExists && store.Valid(world)
    requires ordered != [] && AscendingKeys(ordered)
    requires store.state.Some? ==>
      var s := store.state.value; s.seed == seed && s.target <= target && s.shards == ShardMap(ordered)
    modifies planner, store
    ensures store.Valid(world) && (!mayCrash ==> alive)
    ensures base == StateRecord(seed, target, PhasePlanning, ShardMap(ordered))
    ensures alive ==> Running(store, planner, world, CallJob(world, ordered, target, seed), base)
    ensures store.databaseExists && FrozenBy(old(store.Snapshot()), store.Snapshot(), ordered, seed, target)
  {
    hide DurableValid, AscendingKeys, ShardMap;
    ghost var before := store.Snapshot();
    base := StateRecord(seed, target, PhasePlanning, ShardMap(ordered));
    if store.state.None? {
      FreshStore(before, world);
      store.ordered, store.planned, store.scanned, store.rowsTarget, store.metadataTarget := ordered, 0, 0, map[], map[];
      store.state := Some(StateRecord(seed, target, PhasePlanning, ShardMap(ordered)));
      FreshRun(store, planner, world, CallJob(world, ordered, target, seed), base);
      alive := Survives(mayCrash);
    } else {
      SameOrder(before, world, ordered);
      if target > store.state.value.target {
        GrowthValid(before, world, target);
        planner.ClearCandidates();
        store.scanned := 0;
        assert store.Snapshot() == ClearedForGrowth(before);
        alive := Survives(mayCrash);
        if !alive { return; }
        store.state := Some(StateRecord(seed, target, PhasePlanned, ShardMap(ordered)));
        alive := Survives(mayCrash);
      } else {
        alive := true;
      }
    }
  }

  lemma FreshStore(d: Durable, world: World)
    requires Sound(world) && d.state.None? && DurableValid(d, world)
    ensures d.tables == EmptyTables() && d.cachedRows == map[] && d.cachedMetadata == map[]
  {
  }

  lemma SameOrder(d: Durable, world: World, ordered: seq<FinalizedShard>)
    requires Sound(world) && d.state.Some? && DurableValid(d, world)
    requires AscendingKeys(ordered) && d.state.value.shards == ShardMap(ordered)
    ensures d.ordered == ordered
  {
    ShardMapDetermines(d.ordered, ordered);
  }

  /** What a run may do to the identity of the job: fix it once, and then only enlarge the
      target, up to its own. */
  ghost predicate FrozenBy(before: Durable, after: Durable, ordered: seq<FinalizedShard>, seed: string, target: nat) {
    && (before.state.Some? ==>
        && after.state.Some?
        && after.state.value.seed == before.state.value.seed && after.ordered == before.ordered
        && before.state.value.target <= after.state.value.target)
    && (after.state.Some? ==>
        && after.state.value.seed == seed && after.ordered == ordered && after.state.value.target <= target)
  }

  // ----- One call -----

  /** The directory the tables are published to. */
  class Outputs {
    var files: map<string, seq<Row>>

    constructor ()
      ensures files == map[]
    {
      files := map[];
    }
  }

  lemma PlanningFinished(store: SamplingStore, planner: PersistentPlanner, world: World, job: Job, base: StateRecord)
    requires Sound(world) && Running(store, planner, world, job, base) && store.planned == |job.corpus|
    ensures JobReady(job) && "" !in planner.polygonMetadata
    ensures JobPlan(job)
      == PlanFor(planner.polygonMetadata, planner.stratumSizes, planner.totalRows, job.target, job.ranks)
  {
    hide Running, TablesValid, CacheValid, CollisionFree, DistinctKeys, Sound;
    RunningTables(store, planner, world, job, base);
    PlanningDone(store.tables, job, store.scanned);
    NoEmptyPolygon(Rows(job.corpus));
  }

  /** `_build_plan` over the reloaded tables gives the plan of the concatenated table. */
  method PlanRun(
    store: SamplingStore, planner: PersistentPlanner, target: nat, ranks: Ranks,
    ghost world: World, ghost job: Job, ghost base: StateRecord)
    returns (plan: Plan)
    requires Sound(world) && Running(store, planner, world, job, base) && store.planned == |job.corpus|
    requires target >= 1 && target == job.target && ranks == job.ranks
    ensures JobReady(job) && plan == JobPlan(job)
  {
    hide Running, PlanFor, JobPlan, Sound;
    PlanningFinished(store, planner, world, job, base);
    assert CollisionFree(job.ranks);
    plan := BuildPlan(planner.polygonMetadata, planner.stratumSizes, planner.totalRows, target, ranks);
  }

  ghost function Reference(job: Job): seq<Row>
    requires JobReady(job)
  {
    SelectedRows(Rows(job.corpus), job.target, job.ranks)
  }

  /** Materialize the exact ledger and publish the output in schedule order. */
  method Publish(
    store: SamplingStore, planner: PersistentPlanner, outputs: Outputs, path: string, corpus: seq<Source>, plan: Plan,
    batchSize: nat, mayCrash: bool, ghost world: World, ghost job: Job, ghost base: StateRecord)
    returns (alive: bool)
    requires Sound(world) && batchSize >= 1 && Running(store, planner, world, job, base)
    requires JobReady(job) && corpus == job.corpus && plan == JobPlan(job)
    requires LedgerExact(job, store.tables.candidates, |Rows(corpus)|)
    modifies store`cachedRows, store`cachedMetadata, store`rowsTarget, store`metadataTarget, store`state, outputs
    ensures Running(store, planner, world, job, base) && (!mayCrash ==> alive)
    ensures outputs.files == old(outputs.files)[path := Reference(job)] ||
      (!alive && outputs.files == old(outputs.files))
    ensures alive ==> store.state.Some? && store.state.value.phase == PhaseComplete
  {
    hide Running, WorkingOn, TablesValid, CacheValid, JobReady, JobPlan, LedgerExact, SelectedRows, ListsRetained, TableIs, FinalLedger, Sound;
    RunningTables(store, planner, world, job, base);
    ExactIsFinal(job, store.tables.candidates);
    ghost var before := store.Snapshot();
    var heaps;
    alive, heaps := Materialize(store, corpus, plan, mayCrash, job);
    StillRunning(before, store, planner, world, job, base);
    if !alive { return; }
    alive := WritePhase(store, planner, PhaseWriting, mayCrash, world, job, base);
    if !alive { return; }
    ReadyTable(job);
    var written := WriteSelected(heaps, Rows(corpus), plan, job.target, job.ranks, batchSize);
    outputs.files := outputs.files[path := written];
    alive := Survives(mayCrash);
    if !alive { return; }
    alive := WritePhase(store, planner, PhaseComplete, mayCrash, world, job, base);
  }

  lemma ReadyTable(job: Job)
    requires JobReady(job)
    ensures CollisionFree(job.ranks) && TableIs(Rows(job.corpus), JobPlan(job), job.target, job.ranks)
  {
  }

  /** Everything behind the state checks. */
  method RunPhases(
    store: SamplingStore, planner: PersistentPlanner, outputs: Outputs, path: string, corpus: seq<Source>,
    target: nat, ranks: Ranks, batchSize: nat, mayCrash: bool, ghost world: World, ghost job: Job, ghost base: StateRecord)
    returns (r: Stage)
    requires Sound(world) && batchSize >= 1 && target >= 1 && Running(store, planner, world, job, base)
    requires corpus == job.corpus && target == job.target && ranks == job.ranks
    modifies planner, store`tables, store`planned, store`scanned, store`state,
      store`cachedRows, store`cachedMetadata, store`rowsTarget, store`metadataTarget, outputs
    ensures Running(store, planner, world, job, base) && (!mayCrash ==> !r.Died?)
    ensures r.Refused? ==> !Plannable(Rows(corpus))
    ensures r.Finished? ==> JobReady(job) && outputs.files == old(outputs.files)[path := Reference(job)]
    ensures r.Finished? ==> store.state.Some? && store.state.value.phase == PhaseComplete
    ensures r.Refused? ==> outputs.files == old(outputs.files)
    ensures r.Died? ==>
      || outputs.files == old(outputs.files)
      || (JobReady(job) && outputs.files == old(outputs.files)[path := Reference(job)])
  {
    hide Running, JobReady, JobPlan, LedgerExact, Reference, Plannable, Sound;
    r := PlanAll(store, planner, corpus, batchSize, mayCrash, world, job, base);
    if !r.Finished? { return; }
    var plan := PlanRun(store, planner, target, ranks, world, job, base);
    var alive := WritePhase(store, planner, PhaseRetaining, mayCrash, world, job, base);
    if !alive { return Died; }
    alive := RetainAll(store, planner, corpus, plan, ranks, batchSize, mayCrash, world, job, base);
    if !alive { return Died; }
    alive := WritePhase(store, planner, PhaseMaterializing, mayCrash, world, job, base);
    if !alive { return Died; }
    alive := Publish(store, planner, outputs, path, corpus, plan, batchSize, mayCrash, world, job, base);
    r := if alive then Finished else Died;
  }

  /** What an admitted call does to the outputs: it publishes the reference selection of the
      concatenated shards, or nothing. */
  ghost predicate Ran(job: Job, r: Outcome, before: map<string, seq<Row>>, after: map<string, seq<Row>>, path: string) {
    match r
    case Completed => JobReady(job) && after == before[path := Reference(job)]
    case Rejected(_) => !Plannable(Rows(job.corpus)) && after == before
    case Crashed => after == before || (JobReady(job) && after == before[path := Reference(job)])
  }

  /** A call that passed the checks. */
  method RunAdmitted(
    store: SamplingStore, outputs: Outputs, path: string, ordered: seq<FinalizedShard>, target: nat, seed: string,
    batchSize: nat, mayCrash: bool, world: World)
    returns (r: Outcome)
    requires Sound(world) && store.Valid(world) && target >= 1 && batchSize >= 1
    requires ordered != [] && AscendingKeys(ordered)
    requires store.state.Some? ==>
      var s := store.state.value; s.seed == seed && s.target <= target && s.shards == ShardMap(ordered)
    modifies store, outputs
    ensures store.Valid(world) && (!mayCrash ==> !r.Crashed?)
    ensures Ran(CallJob(world, ordered, target, seed), r, old(outputs.files), outputs.files, path)
    ensures store.databaseExists || (r.Crashed? && store.Snapshot() == old(store.Snapshot()))
    ensures FrozenBy(old(store.Snapshot()), store.Snapshot(), ordered, seed, target)
    ensures !r.Crashed? || outputs.files != old(outputs.files) ==>
      store.state.Some? && store.state.value.target == target
    ensures r.Completed? ==> store.state.Some? && store.state.value.phase == PhaseComplete
  {
    hide DurableValid, Running, AscendingKeys, ShardMap, Sound, JobReady, Reference, Plannable;
    ghost var before := store.Snapshot();
    AlreadyFrozen(before, world, ordered, seed, target);
    var alive := Survives(mayCrash);
    if !alive { return Crashed; }
    var planner := new PersistentPlanner(store);
    DatabaseCreated(before, store.Snapshot(), world);
    ghost var job := CallJob(world, ordered, target, seed);
    alive := Survives(mayCrash);
    if !alive { return Crashed; }
    ghost var base;
    alive, base := OpenState(store, planner, ordered, target, seed, mayCrash, world);
    if !alive { return Crashed; }
    RunningValid(store, planner, world, job, base);
    var stage := RunPhases(store, planner, outputs, path, Resolve(ordered, world.content), target, world.hash(seed),
      batchSize, mayCrash, world, job, base);
    RunningValid(store, planner, world, job, base);
    match stage {
      case Finished => r := Completed;
      case Died => r := Crashed;
      case Refused(message) => r := Rejected(message);
    }
  }

  /** `select_v2_shards_resumable`. */
  method SelectShards(
    store: SamplingStore, outputs: Outputs, path: string, shards: seq<FinalizedShard>, target: int, seed: string,
    batchSize: int, mayCrash: bool, world: World)
    returns (r: Outcome, ghost ordered: seq<FinalizedShard>)
    requires Sound(world) && store.Valid(world)
    modifies store, outputs
    ensures store.Valid(world) && (!mayCrash ==> !r.Crashed?)
    // A call is let in exactly when the stored identity admits it ...
    ensures !old(Admissible(store.Snapshot(), shards, target, seed, batchSize) && path !in outputs.files) ==>
      r.Rejected? && store.Snapshot() == old(store.Snapshot()) && outputs.files == old(outputs.files)
    // ... and is then refused only for a table the reference planners would not take either.
    ensures old(Admissible(store.Snapshot(), shards, target, seed, batchSize) && path !in outputs.files) ==>
      && AscendingKeys(ordered) && SameShards(ordered, shards)
      && Ran(CallJob(world, ordered, target, seed), r, old(outputs.files), outputs.files, path)
      && (store.databaseExists || (r.Crashed? && store.Snapshot() == old(store.Snapshot())))
      && FrozenBy(old(store.Snapshot()), store.Snapshot(), ordered, seed, target)
      && (!r.Crashed? || outputs.files != old(outputs.files) ==> store.state.Some? && store.state.value.target == target)
      && (r.Completed? ==> store.state.value.phase == PhaseComplete)
  {
    hide DurableValid, AscendingKeys, ShardMap, Sound, SameShards, ShardsAccepted, StateAccepts, Ran, FrozenBy;
    ordered := [];
    if target < 1 || batchSize < 1 || seed == "" {
      return Rejected("arguments are invalid"), [];
    }
    var validated := ValidateShards(shards);
    if validated.Err? {
      return Rejected(validated.message), [];
    }
    ordered := validated.value;
    if path in outputs.files {
      return Rejected("V2 output must be fresh"), ordered;
    }
    var checked := CheckState(store, validated.value, target, seed, shards);
    if checked.Some? {
      return Rejected(checked.value), ordered;
    }
    AcceptedState(store.Snapshot(), shards, target, seed);
    r := RunAdmitted(store, outputs, path, validated.value, target, seed, batchSize, mayCrash, world);
  }

  lemma AcceptedState(d: Durable, shards: seq<FinalizedShard>, target: int, seed: string)
    requires StateAccepts(d, shards, target, seed)
    ensures d.state.Some? ==> d.state.value.seed == seed && d.state.value.target <= target
  {
  }

  lemma AlreadyFrozen(d: Durable, world: World, ordered: seq<FinalizedShard>, seed: string, target: nat)
    requires Sound(world) && DurableValid(d, world) && AscendingKeys(ordered)
    requires d.state.Some? ==>
      var s := d.state.value; s.seed == seed && s.target <= target && s.shards == ShardMap(ordered)
    ensures FrozenBy(d, d, ordered, seed, target) && FrozenBy(d, d.(databaseExists := true), ordered, seed, target)
  {
    if d.state.Some? { SameOrder(d, world, ordered); }
  }

  lemma DatabaseCreated(before: Durable, after: Durable, world: World)
    requires Sound(world) && DurableValid(before, world) && after == before.(databaseExists := true)
    ensures DurableValid(after, world)
  {
  }

  lemma RunningValid(store: SamplingStore, planner: PersistentPlanner, world: World, job: Job, base: StateRecord)
    requires Sound(world) && Running(store, planner, world, job, base)
    ensures store.Valid(world) && store.state.Some? && store.state.value.seed == base.seed
    ensures store.state.value.target == base.target
  {
  }
}
