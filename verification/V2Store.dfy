/** The durable state directory of the resumable sampler, and one connection to it.

    A store survives a crash; a planner is lost with the process. Every write of a store
    field stands for one atomic durable write: a committed transaction, a renamed file. */
module V2Store {
  import opened Wrappers
  import opened SentenceTable
  import opened FairQueue
  import opened Selection
  import opened SamplingPlan
  import opened ShardCorpus
  import opened V2Ledger
  import opened V2Materialize
  import V2Bounded

  /** Outside world: what a shard identity stands for, and the seeded hash. */
  datatype World = World(content: string -> seq<Row>, hash: string -> Ranks)

  ghost predicate Sound(world: World) {
    forall seed :: CollisionFree(world.hash(seed))
  }

  datatype Phase = PhasePlanning | PhasePlanned | PhaseRetaining | PhaseMaterializing | PhaseWriting | PhaseComplete

  /** `state.json`. */
  datatype StateRecord = StateRecord(seed: string, target: nat, phase: Phase, shards: map<string, string>)

  /** A cached shard's `.json`; the locator list stands for its fingerprint. */
  datatype CacheMetadata = CacheMetadata(shardKey: string, identity: string, rowCount: nat, locators: seq<Locator>)

  // ----- The materialized-row cache -----

  ghost predicate RowsCached(job: Job, j: nat, target: nat, rows: seq<Row>)
    requires JobReady(job) && DistinctKeys(job.corpus) && j < |job.corpus|
  {
    target <= job.target && rows == ShardRows(job.(target := target), j)
  }

  ghost predicate MetadataCached(job: Job, j: nat, target: nat, meta: CacheMetadata)
    requires JobReady(job) && DistinctKeys(job.corpus) && j < |job.corpus|
  {
    meta.locators == JobLocators(job.(target := target), j)
  }

  /** The row file of a shard was written for some target up to the current one, and its
      metadata file for that target or an earlier one. */
  ghost predicate ShardCacheValid(
    job: Job, j: nat, rows: map<string, seq<Row>>, metadata: map<string, CacheMetadata>,
    rowsTarget: map<string, nat>, metadataTarget: map<string, nat>)
    requires JobReady(job) && DistinctKeys(job.corpus) && j < |job.corpus|
  {
    var key := job.corpus[j].shardKey;
    && (key in rows ==> key in rowsTarget && RowsCached(job, j, rowsTarget[key], rows[key]))
    && (key in metadata ==>
        && key in rows && key in metadataTarget && key in rowsTarget
        && metadataTarget[key] <= rowsTarget[key]
        && MetadataCached(job, j, metadataTarget[key], metadata[key]))
  }

  ghost predicate CacheValid(
    job: Job, rows: map<string, seq<Row>>, metadata: map<string, CacheMetadata>,
    rowsTarget: map<string, nat>, metadataTarget: map<string, nat>)
    requires DistinctKeys(job.corpus) && CollisionFree(job.ranks)
  {
    if JobReady(job) then
      forall j :: 0 <= j < |job.corpus| ==> ShardCacheValid(job, j, rows, metadata, rowsTarget, metadataTarget)
    else
      rows == map[] && metadata == map[]
  }

  /** An accepted entry is what reading the shard would give: the row file's target lies
      between two targets whose locators agree. */
  lemma CacheHit(job: Job, j: nat, older: nat, newer: nat)
    requires JobReady(job) && DistinctKeys(job.corpus) && j < |job.corpus|
    requires older <= newer <= job.target
    requires JobLocators(job.(target := older), j) == JobLocators(job, j)
    ensures ShardRows(job.(target := newer), j) == ShardRows(job, j)
  {
    hide FinalLedger;
    var low, mid := job.(target := older), job.(target := newer);
    FinalLedgerMonotone(low, mid);
    FinalLedgerMonotone(mid, job);
    FinalOnePerRow(low);
    FinalOnePerRow(mid);
    FinalOnePerRow(job);
    LocatorsBetween(FinalLedger(low), FinalLedger(mid), FinalLedger(job), job.corpus[j].shardKey);
  }

  lemma LocatorsBetween(low: set<Locator>, mid: set<Locator>, high: set<Locator>, key: string)
    requires low <= mid <= high && OneEntryPerRow(low) && OneEntryPerRow(mid) && OneEntryPerRow(high)
    requires ShardLocators(low, key) == ShardLocators(high, key)
    ensures ShardLocators(mid, key) == ShardLocators(high, key)
  {
    assert InShard(low, key) == Ranking.Elements(ShardLocators(low, key));
    assert InShard(high, key) == Ranking.Elements(ShardLocators(high, key));
    assert InShard(low, key) <= InShard(mid, key) <= InShard(high, key);
    assert InShard(mid, key) == InShard(high, key);
  }

  /** Enlarging the target keeps every cache entry valid. */
  lemma CacheGrows(
    job: Job, target: nat, rows: map<string, seq<Row>>, metadata: map<string, CacheMetadata>,
    rowsTarget: map<string, nat>, metadataTarget: map<string, nat>)
    requires DistinctKeys(job.corpus) && CollisionFree(job.ranks) && job.target <= target
    requires CacheValid(job, rows, metadata, rowsTarget, metadataTarget)
    ensures CacheValid(job.(target := target), rows, metadata, rowsTarget, metadataTarget)
  {
    hide ShardRows, JobLocators;
    var bigger := job.(target := target);
    if JobReady(job) {
      forall j | 0 <= j < |job.corpus|
        ensures ShardCacheValid(bigger, j, rows, metadata, rowsTarget, metadataTarget)
      {
        assert ShardCacheValid(job, j, rows, metadata, rowsTarget, metadataTarget);
        assert forall t: nat :: bigger.(target := t) == job.(target := t);
      }
    }
  }

  // ----- The store -----

  /** The contents of a store, with what its history determines: the shards in key order,
      how many are planned, how many rows are scanned, and the target each cache file was
      written for. */
  datatype Durable = Durable(
    state: Option<StateRecord>,
    databaseExists: bool,
    tables: Tables,
    cachedRows: map<string, seq<Row>>,
    cachedMetadata: map<string, CacheMetadata>,
    ordered: seq<FinalizedShard>,
    planned: nat,
    scanned: nat,
    rowsTarget: map<string, nat>,
    metadataTarget: map<string, nat>)

  ghost function JobIn(d: Durable, world: World): Job
    requires d.state.Some?
  {
    Job(Resolve(d.ordered, world.content), world.hash(d.state.value.seed), d.state.value.target)
  }

  ghost predicate DurableValid(d: Durable, world: World)
    requires Sound(world)
  {
    if d.state.None? then
      d.tables == EmptyTables() && d.cachedRows == map[] && d.cachedMetadata == map[]
    else
      && d.databaseExists
      && AscendingKeys(d.ordered)
      && ShardMap(d.ordered) == d.state.value.shards
      && DistinctKeys(JobIn(d, world).corpus)
      && TablesValid(d.tables, JobIn(d, world), d.planned, d.scanned)
      && CacheValid(JobIn(d, world), d.cachedRows, d.cachedMetadata, d.rowsTarget, d.metadataTarget)
  }

  class SamplingStore {
    var state: Option<StateRecord>
    var databaseExists: bool
    var tables: Tables
    var cachedRows: map<string, seq<Row>>
    var cachedMetadata: map<string, CacheMetadata>

    // History, as in `Durable`.
    ghost var ordered: seq<FinalizedShard>
    ghost var planned: nat
    ghost var scanned: nat
    ghost var rowsTarget: map<string, nat>
    ghost var metadataTarget: map<string, nat>

    ghost function Snapshot(): Durable
      reads this
    {
      Durable(state, databaseExists, tables, cachedRows, cachedMetadata, ordered, planned, scanned,
        rowsTarget, metadataTarget)
    }

    /** What every durable write leaves true. */
    ghost predicate Valid(world: World)
      requires Sound(world)
      reads this
    {
      DurableValid(Snapshot(), world)
    }

    constructor ()
      ensures state.None? && !databaseExists
      ensures tables == EmptyTables() && cachedRows == map[] && cachedMetadata == map[]
    {
      state, databaseExists, tables := None, false, EmptyTables();
      cachedRows, cachedMetadata := map[], map[];
      ordered, planned, scanned, rowsTarget, metadataTarget := [], 0, 0, map[], map[];
    }
  }

  // ----- One connection -----

  class PersistentPlanner {
    const store: SamplingStore
    var working: Tables
    var inTransaction: bool
    var polygonMetadata: map<string, Metadata>
    var stratumSizes: Strata<Cell>
    var totalRows: nat

    /** In-memory attributes mirror the tables of the open transaction. */
    ghost predicate Mirrors()
      reads this
    {
      && polygonMetadata == working.polygonMetadata
      && stratumSizes == working.stratumSizes
      && totalRows == working.totalRows
    }

    /** No transaction is open and nothing uncommitted is held. */
    ghost predicate Idle()
      reads this, store
    {
      Mirrors() && !inTransaction && working == store.tables
    }

    /** Opening creates the database when it is missing and loads the committed tables. */
    constructor (store: SamplingStore)
      modifies store`databaseExists
      ensures this.store == store && Idle() && store.databaseExists
    {
      this.store := store;
      working, inTransaction := store.tables, false;
      polygonMetadata, stratumSizes, totalRows :=
        store.tables.polygonMetadata, store.tables.stratumSizes, store.tables.totalRows;
      new;
      store.databaseExists := true;
    }

    method Begin()
      requires Idle()
      modifies this`inTransaction
      ensures Mirrors() && inTransaction && working == store.tables
    {
      inTransaction := true;
    }

    /** Throws the open transaction away and reloads the memory from the tables. */
    method Rollback()
      modifies this
      ensures Idle()
    {
      working, inTransaction := store.tables, false;
      polygonMetadata, stratumSizes, totalRows :=
        working.polygonMetadata, working.stratumSizes, working.totalRows;
    }

    ghost predicate Describes(seen: seq<Row>)
      reads this
    {
      && Plannable(seen)
      && working.sentenceIds == IdSet(seen)
      && working.polygonMetadata == Polygons(seen)
      && working.stratumSizes == StratumSizes(seen)
      && "" !in working.polygonMetadata
    }

    /** One planning batch, inside the open transaction. */
    method Observe(batch: seq<Row>, ghost seen: seq<Row>) returns (ok: bool)
      requires Mirrors() && inTransaction && Describes(seen)
      modifies this
      ensures ok <==> Plannable(seen + batch)
      ensures inTransaction
      ensures ok ==> Mirrors() && Describes(seen + batch)
      ensures ok ==> working == old(working).(
        sentenceIds := working.sentenceIds, polygonMetadata := working.polygonMetadata,
        stratumSizes := working.stratumSizes)
    {
      var checked := V2Bounded.CheckBatch(batch, polygonMetadata, seen);
      if checked.Err? {
        return false;
      }
      var inserted, ids := InsertIds(working.sentenceIds, batch, seen);
      if !inserted {
        return false;
      }
      var (meta, counts) := checked.value;
      var sizes := AddCounts(stratumSizes, counts);
      SizesConcat(seen, batch);
      working := working.(sentenceIds := ids, polygonMetadata := meta, stratumSizes := sizes);
      polygonMetadata, stratumSizes := meta, sizes;
      ok := true;
    }

    method FinishPlanningShard(shardKey: string, rowCount: nat, offset: nat)
      requires Mirrors() && inTransaction
      modifies this, store`tables
      ensures Idle()
      ensures store.tables == WithShardPlanned(old(working), shardKey, rowCount, offset)
    {
      working := WithShardPlanned(working, shardKey, rowCount, offset);
      totalRows := offset + rowCount;
      store.tables, inTransaction := working, false;
    }

    /** The deletes, then the inserts, then the new row offset, in one commit. */
    method CommitBatch(shardKey: string, offset: nat, deletes: seq<(Cell, nat)>, inserts: seq<Locator>)
      requires Mirrors() && inTransaction && working == store.tables
      requires shardKey in working.progress && NoConflict(working.candidates, inserts)
      modifies this, store`tables
      ensures Idle()
      ensures store.tables == WithBatch(old(working), shardKey, offset, deletes, inserts)
    {
      working := WithBatch(working, shardKey, offset, deletes, inserts);
      store.tables, inTransaction := working, false;
    }

    method FinishRetainingShard(shardKey: string)
      requires Mirrors() && inTransaction && working == store.tables && shardKey in working.progress
      modifies this, store`tables
      ensures Idle()
      ensures store.tables == WithShardRetained(old(working), shardKey)
    {
      working := WithShardRetained(working, shardKey);
      store.tables, inTransaction := working, false;
    }

    method ClearCandidates()
      requires Idle()
      modifies this, store`tables
      ensures Idle()
      ensures store.tables == WithCandidatesCleared(old(working))
    {
      working := WithCandidatesCleared(working);
      store.tables := working;
    }

    method CompactCandidates(keep: set<(Cell, nat)>)
      requires Idle()
      modifies this, store`tables
      ensures Idle()
      ensures store.tables == old(working).(candidates := Compacted(old(working).candidates, keep))
    {
      working := working.(candidates := Compacted(working.candidates, keep));
      store.tables := working;
    }
  }
}
