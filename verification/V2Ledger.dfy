/** The SQLite ledger of the resumable sampler: its tables, what every commit leaves
    true of them, and why the retained rows can always be rebuilt from them. */
module V2Ledger {
  import opened Wrappers
  import opened Ranking
  import opened FairQueue
  import opened Queues
  import opened SentenceTable
  import opened Selection
  import opened SamplingPlan
  import opened QuotaHeaps
  import opened Retention
  import opened ShardCorpus
  import V2Sampling
  import Sums

  datatype Progress = Progress(rowCount: nat, rowOffset: nat, planned: bool, retained: bool, retainOffset: nat)

  datatype Locator = Locator(
    stratum: Cell, polygonOrder: int, rank: int, globalIndex: nat, shardKey: string, rowIndex: nat)

  datatype Tables = Tables(
    totalRows: nat,
    sentenceIds: set<string>,
    polygonMetadata: map<string, Metadata>,
    stratumSizes: Strata<Cell>,
    progress: map<string, Progress>,
    candidates: set<Locator>)

  /** What one run works towards. */
  datatype Job = Job(corpus: seq<Source>, ranks: Ranks, target: nat)

  function EmptyTables(): Tables {
    Tables(0, {}, map[], map[], map[], {})
  }

  // ----- Planning -----

  ghost predicate ShardPlanned(t: Tables, corpus: seq<Source>, planned: nat, j: nat)
    requires j < |corpus|
  {
    && (corpus[j].shardKey in t.progress <==> j < planned)
    && (j < planned ==>
        var p := t.progress[corpus[j].shardKey];
        p.planned && p.rowCount == |corpus[j].rows| && p.rowOffset == |Flat(corpus, j)|)
  }

  ghost function ShardKeys(corpus: seq<Source>, count: nat): set<string>
    requires count <= |corpus|
  {
    if count == 0 then {} else ShardKeys(corpus, count - 1) + {corpus[count - 1].shardKey}
  }

  /** Exactly the first `planned` shards have been scanned, each with its offset, and the
      tables say what one pass over their concatenation says. */
  ghost predicate PlanningValid(t: Tables, corpus: seq<Source>, planned: nat) {
    && planned <= |corpus|
    && TablesDescribe(t, Flat(corpus, planned))
    && t.progress.Keys == ShardKeys(corpus, planned)
    && forall j :: 0 <= j < |corpus| ==> ShardPlanned(t, corpus, planned, j)
  }

  ghost predicate TablesDescribe(t: Tables, rows: seq<Row>) {
    && Plannable(rows)
    && t.totalRows == |rows|
    && t.sentenceIds == IdSet(rows)
    && t.polygonMetadata == Polygons(rows)
    && t.stratumSizes == StratumSizes(rows)
  }

  // ----- Retention progress -----

  function Clamp(x: int, high: nat): nat {
    if x < 0 then 0 else if x > high then high else x
  }

  /** How far retention got in shard `j` once `scanned` rows of the concatenation are done. */
  ghost predicate ShardScanned(p: Progress, corpus: seq<Source>, j: nat, scanned: nat)
    requires j < |corpus|
  {
    && p.retainOffset == Clamp(scanned - |Flat(corpus, j)|, |corpus[j].rows|)
    && (if p.retained then scanned >= |Flat(corpus, j + 1)| else scanned <= |Flat(corpus, j + 1)|)
  }

  /** Shards are marked retained in key order. */
  ghost predicate RetainedBefore(t: Tables, corpus: seq<Source>, j: nat)
    requires j <= |corpus|
  {
    forall k :: 0 <= k < j ==> corpus[k].shardKey in t.progress && t.progress[corpus[k].shardKey].retained
  }

  ghost predicate ScanValid(t: Tables, corpus: seq<Source>, planned: nat, scanned: nat) {
    && scanned <= |Rows(corpus)|
    && (planned < |corpus| ==> scanned == 0)
    && forall j :: 0 <= j < |corpus| && corpus[j].shardKey in t.progress ==>
      ShardScanned(t.progress[corpus[j].shardKey], corpus, j, scanned)
  }

  // ----- The candidate ledger -----

  ghost predicate JobReady(job: Job) {
    CollisionFree(job.ranks) && Plannable(Rows(job.corpus))
  }

  ghost function JobPlan(job: Job): Plan
    requires JobReady(job)
  {
    TablePlan(Rows(job.corpus), job.target, job.ranks)
  }

  ghost function JobKey(job: Job): nat -> Key
    requires JobReady(job)
  {
    RowKey(Rows(job.corpus), JobPlan(job).polygonOrder, job.ranks)
  }

  lemma JobKeyByIndex(job: Job)
    requires JobReady(job)
    ensures KeyedByIndex(JobKey(job))
  {
    RowKeyByIndex(Rows(job.corpus), JobPlan(job).polygonOrder, job.ranks);
  }

  /** The rows of stratum `c` to be kept after scanning the first `scanned` rows. */
  ghost function Wanted(job: Job, scanned: nat, c: Cell): set<nat>
    requires JobReady(job) && c in JobPlan(job).quotas
  {
    JobKeyByIndex(job);
    Retained(ScannedIn(Rows(job.corpus), UpTo(scanned), c), JobPlan(job).quotas[c], JobKey(job))
  }

  lemma WantedScanned(job: Job, scanned: nat, c: Cell)
    requires JobReady(job) && c in JobPlan(job).quotas
    ensures forall g :: g in Wanted(job, scanned, c) ==>
      g < scanned && g < |Rows(job.corpus)| && Rows(job.corpus)[g].coordinates == InCell(c)
  {
    JobKeyByIndex(job);
    UpToMembers(scanned);
  }

  /** The one ledger entry a row can have. */
  ghost function LocatorAt(job: Job, g: nat): Locator
    requires JobReady(job)
  {
    var rows := Rows(job.corpus);
    var shard := ShardOf(job.corpus, |job.corpus|, g);
    if g < |rows| && Located(rows[g]) && rows[g].polygonId in JobPlan(job).polygonOrder && shard < |job.corpus|
    then
      Locator(rows[g].coordinates.cell, JobPlan(job).polygonOrder[rows[g].polygonId],
        job.ranks.sentence(rows[g].sentenceId), g,
        job.corpus[shard].shardKey, if g < |Flat(job.corpus, shard)| then 0 else g - |Flat(job.corpus, shard)|)
    else
      Locator(Cell(0), 0, 0, g, "", 0)
  }

  ghost predicate Genuine(job: Job, l: Locator, scanned: nat)
    requires JobReady(job)
  {
    var rows := Rows(job.corpus);
    && l.globalIndex < scanned && l.globalIndex < |rows|
    && rows[l.globalIndex].coordinates == InCell(l.stratum)
    && l.stratum in JobPlan(job).quotas
    && l == LocatorAt(job, l.globalIndex)
  }

  /** The row was to be kept when it was scanned. */
  ghost predicate Earned(job: Job, l: Locator)
    requires JobReady(job)
  {
    l.stratum in JobPlan(job).quotas && l.globalIndex in Wanted(job, l.globalIndex + 1, l.stratum)
  }

  /** Every entry is a scanned row of a scheduled stratum that earned its place, and every row
      to be kept has its entry; superseded entries may stand beside them. */
  ghost predicate LedgerValid(job: Job, candidates: set<Locator>, scanned: nat)
    requires JobReady(job)
  {
    && (forall l :: l in candidates ==> Genuine(job, l, scanned) && Earned(job, l))
    && (forall c, g :: c in JobPlan(job).quotas && g in Wanted(job, scanned, c) ==> LocatorAt(job, g) in candidates)
  }

  lemma EmptyLedger(job: Job)
    requires JobReady(job)
    ensures LedgerValid(job, {}, 0)
  {
    forall c | c in JobPlan(job).quotas ensures Wanted(job, 0, c) == {} {
      WantedScanned(job, 0, c);
    }
  }

  // ----- One retention batch -----

  /** `DELETE ... WHERE stratum=? AND global_index=?` first, then the inserts. */
  function AfterBatch(candidates: set<Locator>, deletes: seq<(Cell, nat)>, inserts: seq<Locator>): set<Locator> {
    (set l | l in candidates && (l.stratum, l.globalIndex) !in deletes) + (set l | l in inserts)
  }

  /** What the pending lists of a batch amount to after `scanned` rows, when the batch
      started at row `start`. */
  ghost predicate BatchValid(
    job: Job, candidates: set<Locator>, start: nat, scanned: nat, deletes: seq<(Cell, nat)>, inserts: seq<Locator>)
    requires JobReady(job)
  {
    && start <= scanned
    && (forall d :: d in deletes ==> d.1 < scanned)
    && (forall l :: l in inserts ==> Genuine(job, l, scanned) && Earned(job, l) && start <= l.globalIndex)
    && (forall i, j :: 0 <= i < j < |inserts| ==> inserts[i].globalIndex != inserts[j].globalIndex)
    && (forall c, g :: c in JobPlan(job).quotas && g in Wanted(job, scanned, c) ==>
        && (c, g) !in deletes
        && (if g < start then LocatorAt(job, g) in candidates else LocatorAt(job, g) in inserts))
    && (forall c, g :: c in JobPlan(job).quotas && g in Wanted(job, start, c) && g !in Wanted(job, scanned, c) ==>
        (c, g) in deletes)
  }

  lemma BatchStarts(job: Job, candidates: set<Locator>, start: nat)
    requires JobReady(job) && LedgerValid(job, candidates, start)
    ensures BatchValid(job, candidates, start, start, [], [])
  {
    forall c, g | c in JobPlan(job).quotas && g in Wanted(job, start, c) ensures g < start {
      WantedScanned(job, start, c);
    }
  }

  /** The primary key (stratum, global_index) is never violated. */
  ghost predicate NoConflict(candidates: set<Locator>, inserts: seq<Locator>) {
    && (forall i, j :: 0 <= i < j < |inserts| ==> inserts[i].globalIndex != inserts[j].globalIndex)
    && (forall l, i :: l in candidates && 0 <= i < |inserts| ==> l.globalIndex != inserts[i].globalIndex)
  }

  /** What a batch leaves of the earlier entries: no entry that it superseded itself. */
  ghost predicate SupersededDropped(job: Job, before: set<Locator>, after: set<Locator>, start: nat, scanned: nat)
    requires JobReady(job)
  {
    forall l :: l in after && l.globalIndex < start ==>
      && l in before && l.stratum in JobPlan(job).quotas
      && (l.globalIndex in Wanted(job, start, l.stratum) ==> l.globalIndex in Wanted(job, scanned, l.stratum))
  }

  /** Committing a batch keeps the ledger valid and drops what the batch superseded; only rows
      that came and went within one batch stay behind. */
  lemma BatchCommits(
    job: Job, candidates: set<Locator>, start: nat, scanned: nat, deletes: seq<(Cell, nat)>, inserts: seq<Locator>)
    requires JobReady(job) && LedgerValid(job, candidates, start)
    requires BatchValid(job, candidates, start, scanned, deletes, inserts)
    ensures LedgerValid(job, AfterBatch(candidates, deletes, inserts), scanned)
    ensures SupersededDropped(job, candidates, AfterBatch(candidates, deletes, inserts), start, scanned)
    ensures NoConflict(candidates, inserts)
  {
    hide Wanted, JobReady, JobPlan;
    forall c, g | c in JobPlan(job).quotas && g in Wanted(job, scanned, c)
      ensures LocatorAt(job, g) in AfterBatch(candidates, deletes, inserts)
    {
      if g < start {
        WantedLocator(job, scanned, c, g);
        assert (c, g) !in deletes;
      }
    }
  }

  lemma WantedLocator(job: Job, scanned: nat, c: Cell, g: nat)
    requires JobReady(job) && c in JobPlan(job).quotas && g in Wanted(job, scanned, c)
    ensures LocatorAt(job, g).globalIndex == g
    ensures LocatorAt(job, g).stratum == c
  {
    WantedScanned(job, scanned, c);
    LocatorOfRow(job, g);
  }

  lemma JobPolygons(job: Job, g: nat)
    requires JobReady(job) && g < |Rows(job.corpus)| && Located(Rows(job.corpus)[g])
    ensures var r := Rows(job.corpus)[g];
      && r.polygonId in JobPlan(job).polygonOrder && r.polygonId in JobPlan(job).polygonMetadata
      && JobPlan(job).polygonMetadata[r.polygonId].cell == r.coordinates.cell
  {
    hide PolygonOrder, StratumSizes, PlannedSchedule, Quotas;
    PolygonsLookup(Rows(job.corpus));
    V2Sampling.PolygonOrderCovers(Rows(job.corpus), job.ranks);
  }

  /** A located row's entry names its cell, key, shard and position there. */
  lemma LocatorOfRow(job: Job, g: nat)
    requires JobReady(job) && g < |Rows(job.corpus)| && Located(Rows(job.corpus)[g])
    ensures var rows := Rows(job.corpus); var shard := ShardOf(job.corpus, |job.corpus|, g);
      && rows[g].polygonId in JobPlan(job).polygonOrder
      && shard < |job.corpus|
      && |Flat(job.corpus, shard)| <= g < |Flat(job.corpus, shard + 1)|
      && LocatorAt(job, g) == Locator(rows[g].coordinates.cell, JobPlan(job).polygonOrder[rows[g].polygonId],
          job.ranks.sentence(rows[g].sentenceId), g, job.corpus[shard].shardKey, g - |Flat(job.corpus, shard)|)
  {
    hide JobPlan, Flat, ShardOf, PolygonOrder, Polygons;
    JobPolygons(job, g);
    ShardFound(job.corpus, |job.corpus|, g);
  }

  lemma {:induction false} ShardFound(corpus: seq<Source>, count: nat, g: nat)
    requires count <= |corpus| && g < |Flat(corpus, count)|
    ensures var j := ShardOf(corpus, count, g);
      j < count && |Flat(corpus, j)| <= g < |Flat(corpus, j + 1)|
  {
    if count > 0 && g < |Flat(corpus, count - 1)| {
      ShardFound(corpus, count - 1, g);
    }
  }

  // ----- Extending a batch by one row -----

  lemma WantedAfterSkip(job: Job, scanned: nat, c: Cell)
    requires JobReady(job) && c in JobPlan(job).quotas && scanned < |Rows(job.corpus)|
    requires Rows(job.corpus)[scanned].coordinates != InCell(c)
    ensures Wanted(job, scanned + 1, c) == Wanted(job, scanned, c)
  {
    assert UpTo(scanned + 1) == UpTo(scanned) + {scanned};
    ScanOne(Rows(job.corpus), UpTo(scanned), scanned, c);
  }

  lemma GenuineLater(job: Job, l: Locator, scanned: nat)
    requires JobReady(job) && Genuine(job, l, scanned)
    ensures Genuine(job, l, scanned + 1)
  {
  }

  /** A row that is excluded, or whose stratum has no quota. */
  lemma BatchSkips(
    job: Job, candidates: set<Locator>, start: nat, scanned: nat, deletes: seq<(Cell, nat)>, inserts: seq<Locator>)
    requires JobReady(job) && scanned < |Rows(job.corpus)|
    requires BatchValid(job, candidates, start, scanned, deletes, inserts)
    requires var r := Rows(job.corpus)[scanned]; Located(r) ==> r.coordinates.cell !in JobPlan(job).quotas
    ensures BatchValid(job, candidates, start, scanned + 1, deletes, inserts)
  {
    hide Wanted, JobReady, JobPlan, LocatorAt;
    forall c | c in JobPlan(job).quotas ensures Wanted(job, scanned + 1, c) == Wanted(job, scanned, c) {
      WantedAfterSkip(job, scanned, c);
    }
  }

  function PendingDeletes<P>(deletes: seq<(Cell, nat)>, c: Cell, change: Change<P>): seq<(Cell, nat)> {
    if change.Replaced? then deletes + [(c, change.evicted.index)] else deletes
  }

  function PendingInserts<P>(inserts: seq<Locator>, l: Locator, change: Change<P>): seq<Locator> {
    if change.Ignored? then inserts else inserts + [l]
  }

  lemma LocatorIsGenuine(job: Job, g: nat, c: Cell)
    requires JobReady(job) && g < |Rows(job.corpus)|
    requires Rows(job.corpus)[g].coordinates == InCell(c) && c in JobPlan(job).quotas
    ensures Genuine(job, LocatorAt(job, g), g + 1) && LocatorAt(job, g).globalIndex == g
  {
    hide JobPlan, ShardOf;
    LocatorOfRow(job, g);
  }

  /** A row offered to its stratum's heap. */
  lemma BatchOffers<P>(
    job: Job, candidates: set<Locator>, start: nat, scanned: nat, deletes: seq<(Cell, nat)>, inserts: seq<Locator>,
    c: Cell, change: Change<P>)
    requires JobReady(job) && scanned < |Rows(job.corpus)|
    requires BatchValid(job, candidates, start, scanned, deletes, inserts)
    requires Rows(job.corpus)[scanned].coordinates == InCell(c) && c in JobPlan(job).quotas
    requires ChangeOf(change, Wanted(job, scanned, c), Wanted(job, scanned + 1, c), scanned)
    ensures BatchValid(job, candidates, start, scanned + 1,
      PendingDeletes(deletes, c, change), PendingInserts(inserts, LocatorAt(job, scanned), change))
  {
    hide Wanted, JobReady, JobPlan, LocatorAt;
    var deletes', inserts' := PendingDeletes(deletes, c, change), PendingInserts(inserts, LocatorAt(job, scanned), change);
    LocatorIsGenuine(job, scanned, c);
    forall d | d in JobPlan(job).quotas && d != c ensures Wanted(job, scanned + 1, d) == Wanted(job, scanned, d) {
      WantedAfterSkip(job, scanned, d);
    }
    WantedScanned(job, scanned, c);
    forall l | l in inserts' ensures Genuine(job, l, scanned + 1) && Earned(job, l) && start <= l.globalIndex {
      if l in inserts { GenuineLater(job, l, scanned); }
    }
    assert forall d :: d in deletes' ==> d.1 < scanned + 1;
    assert forall i :: 0 <= i < |inserts| ==> inserts[i] in inserts;
    forall d, g | d in JobPlan(job).quotas && g in Wanted(job, scanned + 1, d)
      ensures (d, g) !in deletes'
      ensures if g < start then LocatorAt(job, g) in candidates else LocatorAt(job, g) in inserts'
    {
      if d == c && g == scanned {
        assert LocatorAt(job, g) in inserts';
      } else {
        assert g in Wanted(job, scanned, d);
      }
    }
  }

  // ----- Rebuilding and compacting -----

  ghost function LedgerRows(candidates: set<Locator>): set<nat> {
    set l | l in candidates :: l.globalIndex
  }

  /** The quota-best of the ledger are the quota-best of everything scanned. */
  lemma LedgerKeepsWanted(job: Job, candidates: set<Locator>, scanned: nat, c: Cell)
    requires JobReady(job) && LedgerValid(job, candidates, scanned) && c in JobPlan(job).quotas
    ensures KeyedByIndex(JobKey(job))
    ensures Retained(ScannedIn(Rows(job.corpus), LedgerRows(candidates), c), JobPlan(job).quotas[c], JobKey(job))
      == Wanted(job, scanned, c)
  {
    hide JobPlan, JobKey, LocatorAt, UpTo;
    JobKeyByIndex(job);
    var s := ScannedIn(Rows(job.corpus), UpTo(scanned), c);
    var ledger := ScannedIn(Rows(job.corpus), LedgerRows(candidates), c);
    var wanted := Wanted(job, scanned, c);
    UpToMembers(scanned);
    assert ledger <= s;
    forall g | g in wanted ensures g in ledger {
      WantedLocator(job, scanned, c, g);
      WantedScanned(job, scanned, c);
      assert LocatorAt(job, g) in candidates;
    }
    BestOfLedger(wanted, ledger, s, JobPlan(job).quotas[c], JobKey(job));
    BestUnique(wanted, Retained(ledger, JobPlan(job).quotas[c], JobKey(job)), ledger, JobPlan(job).quotas[c], JobKey(job));
  }

  /** Deleting everything outside the recovered heaps. */
  function Compacted(candidates: set<Locator>, keep: set<(Cell, nat)>): set<Locator> {
    set l | l in candidates && (l.stratum, l.globalIndex) in keep
  }

  ghost predicate KeepsWanted(job: Job, keep: set<(Cell, nat)>, scanned: nat)
    requires JobReady(job)
  {
    forall c, g :: (c, g) in keep <==> c in JobPlan(job).quotas && g in Wanted(job, scanned, c)
  }

  /** No superseded entry is left. */
  ghost predicate LedgerExact(job: Job, candidates: set<Locator>, scanned: nat)
    requires JobReady(job)
  {
    && LedgerValid(job, candidates, scanned)
    && forall l :: l in candidates ==> l.globalIndex in Wanted(job, scanned, l.stratum)
  }

  lemma CompactionExact(job: Job, candidates: set<Locator>, scanned: nat, keep: set<(Cell, nat)>)
    requires JobReady(job) && LedgerValid(job, candidates, scanned) && KeepsWanted(job, keep, scanned)
    ensures LedgerExact(job, Compacted(candidates, keep), scanned)
  {
    hide JobPlan, LocatorAt, Wanted, JobReady;
    forall c, g | c in JobPlan(job).quotas && g in Wanted(job, scanned, c)
      ensures LocatorAt(job, g) in Compacted(candidates, keep)
    {
      WantedLocator(job, scanned, c, g);
      assert (c, g) in keep;
    }
  }

  // ----- What holds at every commit -----

  ghost predicate TablesValid(t: Tables, job: Job, planned: nat, scanned: nat)
    requires CollisionFree(job.ranks)
  {
    && PlanningValid(t, job.corpus, planned)
    && ScanValid(t, job.corpus, planned, scanned)
    && (planned < |job.corpus| ==> t.candidates == {})
    && (planned == |job.corpus| ==> LedgerValid(job, t.candidates, scanned))
  }

  lemma PlanningDone(t: Tables, job: Job, scanned: nat)
    requires CollisionFree(job.ranks) && TablesValid(t, job, |job.corpus|, scanned)
    ensures JobReady(job) && LedgerValid(job, t.candidates, scanned) && scanned <= |Rows(job.corpus)|
    ensures TablesDescribe(t, Rows(job.corpus))
  {
  }

  // ----- Commit of one planned shard -----

  function WithShardPlanned(t: Tables, shardKey: string, rowCount: nat, offset: nat): Tables {
    t.(progress := t.progress[shardKey := Progress(rowCount, offset, true, false, 0)],
       totalRows := offset + rowCount)
  }

  lemma {:induction false} KeysOfPrefix(corpus: seq<Source>, count: nat)
    requires count <= |corpus|
    ensures forall k :: k in ShardKeys(corpus, count) <==> exists j :: 0 <= j < count && corpus[j].shardKey == k
  {
    if count > 0 {
      KeysOfPrefix(corpus, count - 1);
    }
  }

  /** The scan of one more shard, committed whole. */
  lemma PlanCommits(before: Tables, t: Tables, job: Job, planned: nat)
    requires CollisionFree(job.ranks) && DistinctKeys(job.corpus)
    requires planned < |job.corpus| && TablesValid(before, job, planned, 0)
    requires t.progress == before.progress && t.candidates == before.candidates
    requires var rows := Flat(job.corpus, planned + 1);
      Plannable(rows) && t.sentenceIds == IdSet(rows) && t.polygonMetadata == Polygons(rows) && t.stratumSizes == StratumSizes(rows)
    ensures var source := job.corpus[planned];
      TablesValid(WithShardPlanned(t, source.shardKey, |source.rows|, |Flat(job.corpus, planned)|), job, planned + 1, 0)
  {
    hide LedgerValid, Plannable, IdSet, Polygons, StratumSizes;
    var source := job.corpus[planned];
    var t' := WithShardPlanned(t, source.shardKey, |source.rows|, |Flat(job.corpus, planned)|);
    var next := planned + 1;
    forall j | 0 <= j < |job.corpus| ensures ShardPlanned(t', job.corpus, next, j) {
      assert ShardPlanned(before, job.corpus, planned, j);
    }
    if planned + 1 == |job.corpus| {
      EmptyLedger(job);
    }
  }

  /** The stored row count of every planned shard. */
  function RowCounts(progress: map<string, Progress>): map<string, int> {
    map k | k in progress :: progress[k].rowCount
  }

  ghost predicate CountsRows(progress: map<string, Progress>, corpus: seq<Source>, count: nat)
    requires count <= |corpus|
  {
    && progress.Keys == ShardKeys(corpus, count)
    && forall j :: 0 <= j < count ==>
      corpus[j].shardKey in progress && progress[corpus[j].shardKey].rowCount == |corpus[j].rows|
  }

  lemma WithoutLast(progress: map<string, Progress>, corpus: seq<Source>, count: nat)
    requires 0 < count <= |corpus| && DistinctKeys(corpus) && CountsRows(progress, corpus, count)
    ensures CountsRows(progress - {corpus[count - 1].shardKey}, corpus, count - 1)
  {
    KeysOfPrefix(corpus, count - 1);
  }

  lemma CountsWithout(progress: map<string, Progress>, key: string)
    requires key in progress
    ensures Sums.Sum(RowCounts(progress)) == progress[key].rowCount + Sums.Sum(RowCounts(progress - {key}))
  {
    Sums.SumSplit(RowCounts(progress), key);
    assert RowCounts(progress) - {key} == RowCounts(progress - {key});
  }

  /** The row counts of the first shards add up to the next shard's offset. */
  lemma {:induction false} ProgressTotal(progress: map<string, Progress>, corpus: seq<Source>, count: nat)
    requires count <= |corpus| && DistinctKeys(corpus) && CountsRows(progress, corpus, count)
    ensures Sums.Sum(RowCounts(progress)) == |Flat(corpus, count)|
    decreases count
  {
    if count == 0 {
      Sums.SumZero(RowCounts(progress));
    } else {
      var key := corpus[count - 1].shardKey;
      assert corpus[count - 1].shardKey in progress && progress[key].rowCount == |corpus[count - 1].rows|;
      WithoutLast(progress, corpus, count);
      CountsWithout(progress, key);
      hide CountsRows, DistinctKeys, RowCounts;
      ProgressTotal(progress - {key}, corpus, count - 1);
    }
  }

  // ----- Commits of the retention phase -----

  function WithBatch(
    t: Tables, shardKey: string, offset: nat, deletes: seq<(Cell, nat)>, inserts: seq<Locator>): Tables
    requires shardKey in t.progress
  {
    t.(candidates := AfterBatch(t.candidates, deletes, inserts),
       progress := t.progress[shardKey := t.progress[shardKey].(retainOffset := offset)])
  }

  function WithShardRetained(t: Tables, shardKey: string): Tables
    requires shardKey in t.progress
  {
    var p := t.progress[shardKey];
    t.(progress := t.progress[shardKey := p.(retained := true, retainOffset := p.rowCount)])
  }

  function WithCandidatesCleared(t: Tables): Tables {
    t.(candidates := {}, progress := map k | k in t.progress :: t.progress[k].(retained := false, retainOffset := 0))
  }

  lemma ShardKeyPlanned(t: Tables, job: Job, scanned: nat, j: nat)
    requires CollisionFree(job.ranks) && TablesValid(t, job, |job.corpus|, scanned) && j < |job.corpus|
    ensures job.corpus[j].shardKey in t.progress
    ensures var p := t.progress[job.corpus[j].shardKey];
      && p.planned && p.rowCount == |job.corpus[j].rows| && p.rowOffset == |Flat(job.corpus, j)|
      && ShardScanned(p, job.corpus, j, scanned)
  {
    hide LedgerValid, TablesDescribe, ShardScanned;
    assert ShardPlanned(t, job.corpus, |job.corpus|, j);
  }

  /** Progress of every other shard is unaffected by scanning within shard `j`. */
  lemma OtherShardScanned(p: Progress, corpus: seq<Source>, j: nat, k: nat, scanned: nat, more: nat)
    requires j < |corpus| && k < |corpus| && k != j
    requires |Flat(corpus, j)| <= scanned <= more <= |Flat(corpus, j + 1)|
    requires ShardScanned(p, corpus, k, scanned) && (k < j ==> p.retained)
    ensures ShardScanned(p, corpus, k, more)
  {
    if k < j {
      FlatPrefix(corpus, k + 1, j);
    } else {
      FlatPrefix(corpus, j + 1, k);
    }
  }

  ghost predicate SamePlanning(t: Tables, t': Tables) {
    && t'.totalRows == t.totalRows && t'.sentenceIds == t.sentenceIds
    && t'.polygonMetadata == t.polygonMetadata && t'.stratumSizes == t.stratumSizes
    && t'.progress.Keys == t.progress.Keys
    && forall k :: k in t.progress ==>
      t'.progress[k].(retained := t.progress[k].retained, retainOffset := t.progress[k].retainOffset) == t.progress[k]
  }

  lemma PlanningFrame(t: Tables, t': Tables, corpus: seq<Source>, planned: nat)
    requires PlanningValid(t, corpus, planned) && SamePlanning(t, t')
    ensures PlanningValid(t', corpus, planned)
  {
    forall j | 0 <= j < |corpus| ensures ShardPlanned(t', corpus, planned, j) {
      assert ShardPlanned(t, corpus, planned, j);
    }
  }

  /** A committed batch leaves the tables valid for the rows scanned so far. */
  lemma BatchTablesValid(
    t: Tables, job: Job, j: nat, scanned: nat, more: nat, deletes: seq<(Cell, nat)>, inserts: seq<Locator>)
    requires CollisionFree(job.ranks) && DistinctKeys(job.corpus) && j < |job.corpus|
    requires TablesValid(t, job, |job.corpus|, scanned) && JobReady(job)
    requires |Flat(job.corpus, j)| <= scanned <= more <= |Flat(job.corpus, j + 1)|
    requires RetainedBefore(t, job.corpus, j)
    requires job.corpus[j].shardKey in t.progress && !t.progress[job.corpus[j].shardKey].retained
    requires BatchValid(job, t.candidates, scanned, more, deletes, inserts)
    ensures NoConflict(t.candidates, inserts)
    ensures TablesValid(
      WithBatch(t, job.corpus[j].shardKey, more - |Flat(job.corpus, j)|, deletes, inserts), job, |job.corpus|, more)
    ensures SupersededDropped(job, t.candidates,
      WithBatch(t, job.corpus[j].shardKey, more - |Flat(job.corpus, j)|, deletes, inserts).candidates, scanned, more)
  {
    hide LedgerValid, PlanningValid, BatchValid, AfterBatch, NoConflict, JobReady, ShardScanned, SupersededDropped;
    BatchCommits(job, t.candidates, scanned, more, deletes, inserts);
    ShardKeyPlanned(t, job, scanned, j);
    FlatPrefix(job.corpus, j + 1, |job.corpus|);
    var t' := WithBatch(t, job.corpus[j].shardKey, more - |Flat(job.corpus, j)|, deletes, inserts);
    PlanningFrame(t, t', job.corpus, |job.corpus|);
    forall k | 0 <= k < |job.corpus|
      ensures job.corpus[k].shardKey in t'.progress
      ensures ShardScanned(t'.progress[job.corpus[k].shardKey], job.corpus, k, more)
    {
      ShardKeyPlanned(t, job, scanned, k);
      if k != j {
        OtherShardScanned(t.progress[job.corpus[k].shardKey], job.corpus, j, k, scanned, more);
      } else {
        ShardNotRetainedEarly(t.progress[job.corpus[j].shardKey], job.corpus, j, scanned, more);
      }
    }
  }

  lemma ShardNotRetainedEarly(p: Progress, corpus: seq<Source>, j: nat, scanned: nat, more: nat)
    requires j < |corpus| && |Flat(corpus, j)| <= scanned <= more <= |Flat(corpus, j + 1)|
    requires ShardScanned(p, corpus, j, scanned) && !p.retained
    ensures ShardScanned(p.(retainOffset := more - |Flat(corpus, j)|), corpus, j, more)
  {
  }

  lemma RetainedTablesValid(t: Tables, job: Job, j: nat)
    requires CollisionFree(job.ranks) && DistinctKeys(job.corpus) && j < |job.corpus|
    requires TablesValid(t, job, |job.corpus|, |Flat(job.corpus, j + 1)|)
    ensures job.corpus[j].shardKey in t.progress
    ensures TablesValid(WithShardRetained(t, job.corpus[j].shardKey), job, |job.corpus|, |Flat(job.corpus, j + 1)|)
  {
    hide LedgerValid, PlanningValid, ShardScanned;
    var scanned := |Flat(job.corpus, j + 1)|;
    ShardKeyPlanned(t, job, scanned, j);
    var t' := WithShardRetained(t, job.corpus[j].shardKey);
    PlanningFrame(t, t', job.corpus, |job.corpus|);
    forall k | 0 <= k < |job.corpus|
      ensures job.corpus[k].shardKey in t'.progress
      ensures ShardScanned(t'.progress[job.corpus[k].shardKey], job.corpus, k, scanned)
    {
      ShardKeyPlanned(t, job, scanned, k);
      if k == j {
        ShardFullyScanned(t.progress[job.corpus[k].shardKey], job.corpus, k);
      }
    }
  }

  lemma ShardFullyScanned(p: Progress, corpus: seq<Source>, j: nat)
    requires j < |corpus| && p.rowCount == |corpus[j].rows|
    ensures ShardScanned(p.(retained := true, retainOffset := p.rowCount), corpus, j, |Flat(corpus, j + 1)|)
  {
  }

  /** Clearing serves any target, whether or not planning has finished. */
  lemma ClearedTablesValid(t: Tables, job: Job, planned: nat, scanned: nat, target: nat)
    requires CollisionFree(job.ranks) && TablesValid(t, job, planned, scanned)
    ensures TablesValid(WithCandidatesCleared(t), job.(target := target), planned, 0)
  {
    hide LedgerValid, PlanningValid;
    var t' := WithCandidatesCleared(t);
    PlanningFrame(t, t', job.corpus, planned);
    PlannedBound(t, job.corpus, planned);
    if planned == |job.corpus| {
      PlanningDone(t, job, scanned);
      EmptyLedger(job.(target := target));
    }
  }

  lemma PlannedBound(t: Tables, corpus: seq<Source>, planned: nat)
    requires PlanningValid(t, corpus, planned)
    ensures planned <= |corpus|
  {
  }

  lemma CompactedTablesValid(t: Tables, job: Job, scanned: nat, keep: set<(Cell, nat)>)
    requires CollisionFree(job.ranks) && TablesValid(t, job, |job.corpus|, scanned) && JobReady(job)
    requires KeepsWanted(job, keep, scanned)
    ensures TablesValid(t.(candidates := Compacted(t.candidates, keep)), job, |job.corpus|, scanned)
    ensures LedgerExact(job, Compacted(t.candidates, keep), scanned)
  {
    hide LedgerValid, PlanningValid, KeepsWanted, Compacted, JobReady, Wanted;
    PlanningFrame(t, t.(candidates := Compacted(t.candidates, keep)), job.corpus, |job.corpus|);
    CompactionExact(job, t.candidates, scanned, keep);
  }
}
