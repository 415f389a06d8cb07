/** Turning the compacted ledger back into rows, and the cache of rows already read. */
module V2Materialize {
  import opened Wrappers
  import opened Ranking
  import opened FairQueue
  import opened Queues
  import opened Sorting
  import opened SentenceTable
  import opened Selection
  import opened SamplingPlan
  import opened QuotaHeaps
  import opened Retention
  import opened ShardCorpus
  import opened V2Ledger
  import Apportionment
  import V2Sampling

  // ----- The compacted ledger is determined by the job -----

  ghost predicate IsWanted(job: Job, g: nat)
    requires JobReady(job)
  {
    var rows := Rows(job.corpus);
    && g < |rows| && Located(rows[g]) && rows[g].coordinates.cell in JobPlan(job).quotas
    && g in Wanted(job, |rows|, rows[g].coordinates.cell)
  }

  ghost function WantedRows(job: Job): set<nat>
    requires JobReady(job)
  {
    set g | g in UpTo(|Rows(job.corpus)|) && IsWanted(job, g)
  }

  ghost function FinalLedger(job: Job): set<Locator>
    requires JobReady(job)
  {
    set g | g in WantedRows(job) :: LocatorAt(job, g)
  }

  lemma FinalLedgerMembers(job: Job, l: Locator)
    requires JobReady(job)
    ensures l in FinalLedger(job) <==> IsWanted(job, l.globalIndex) && l == LocatorAt(job, l.globalIndex)
  {
    hide LocatorAt, Wanted;
    UpToMembers(|Rows(job.corpus)|);
    if l in FinalLedger(job) {
      var g :| g in WantedRows(job) && l == LocatorAt(job, g);
      WantedLocator(job, |Rows(job.corpus)|, Rows(job.corpus)[g].coordinates.cell, g);
    }
    if IsWanted(job, l.globalIndex) && l == LocatorAt(job, l.globalIndex) {
      assert l.globalIndex in WantedRows(job);
    }
  }

  lemma ExactIsFinal(job: Job, candidates: set<Locator>)
    requires JobReady(job) && LedgerExact(job, candidates, |Rows(job.corpus)|)
    ensures candidates == FinalLedger(job)
  {
    hide LocatorAt, Wanted, FinalLedger, JobPlan, JobReady;
    forall l ensures l in candidates <==> l in FinalLedger(job) {
      FinalLedgerMembers(job, l);
      if l in candidates {
        assert Genuine(job, l, |Rows(job.corpus)|);
      }
    }
  }

  // ----- Growing the target -----

  lemma QuotasGrow(sizes: Strata<Cell>, small: nat, large: nat, ranks: Ranks, c: Cell)
    requires CollisionFree(ranks) && small <= large
    requires c in Quotas(PlannedSchedule(sizes, small, ranks))
    ensures c in Quotas(PlannedSchedule(sizes, large, ranks))
    ensures Quotas(PlannedSchedule(sizes, small, ranks))[c] <= Quotas(PlannedSchedule(sizes, large, ranks))[c]
  {
    Sums.SumNonNegative(sizes);
    var a, b := PlannedSchedule(sizes, small, ranks), PlannedSchedule(sizes, large, ranks);
    ScheduleNested(sizes, Apportionment.Share(sizes, 0), ranks.cell,
      Capped(small, Total(sizes)), Capped(large, Total(sizes)));
    assert a == b[..|a|];
    CountsGrow(b, |a|, c);
  }

  lemma JobKeySame(a: Job, b: Job)
    requires JobReady(a) && a.corpus == b.corpus && a.ranks == b.ranks
    ensures JobReady(b) && JobKey(a) == JobKey(b)
    ensures forall g :: LocatorAt(a, g) == LocatorAt(b, g)
  {
    hide PolygonOrder, PlannedSchedule, ShardOf, Flat, RowKey;
  }

  lemma RetainedMonotone(s: set<nat>, small: nat, large: nat, key: nat -> Key)
    requires KeyedByIndex(key) && small <= large
    ensures Retained(s, small, key) <= Retained(s, large, key)
  {
    KeyedDistinguishes(key, s);
    BestMonotone(s, small, large, key);
  }

  lemma WantedMonotone(a: Job, b: Job, g: nat)
    requires JobReady(a) && a.corpus == b.corpus && a.ranks == b.ranks && a.target <= b.target
    requires IsWanted(a, g)
    ensures JobReady(b) && IsWanted(b, g)
  {
    var rows := Rows(a.corpus);
    var c := rows[g].coordinates.cell;
    QuotasGrow(StratumSizes(rows), a.target, b.target, a.ranks, c);
    JobKeySame(a, b);
    JobKeyByIndex(a);
    hide JobKey, PlannedSchedule, PolygonOrder, Quotas, ScannedIn;
    RetainedMonotone(ScannedIn(rows, UpTo(|rows|), c), JobPlan(a).quotas[c], JobPlan(b).quotas[c], JobKey(a));
  }

  /** A larger target keeps every entry of the compacted ledger. */
  lemma FinalLedgerMonotone(a: Job, b: Job)
    requires JobReady(a) && a.corpus == b.corpus && a.ranks == b.ranks && a.target <= b.target
    ensures JobReady(b) && FinalLedger(a) <= FinalLedger(b)
  {
    hide IsWanted, LocatorAt, FinalLedger;
    JobKeySame(a, b);
    forall l | l in FinalLedger(a) ensures l in FinalLedger(b) {
      FinalLedgerMembers(a, l);
      WantedMonotone(a, b, l.globalIndex);
      FinalLedgerMembers(b, l);
    }
  }

  // ----- The locators of one shard -----

  function LocatorKey(): Locator -> Key {
    (l: Locator) => Key(l.rowIndex, 0, 0)
  }

  ghost function InShard(ledger: set<Locator>, shardKey: string): set<Locator> {
    set l | l in ledger && l.shardKey == shardKey
  }

  ghost predicate OneEntryPerRow(ledger: set<Locator>) {
    forall k, l :: k in ledger && l in ledger && k.shardKey == l.shardKey && k.rowIndex == l.rowIndex ==> k == l
  }

  lemma ShardDistinguished(ledger: set<Locator>, shardKey: string)
    requires OneEntryPerRow(ledger)
    ensures Distinguishes(LocatorKey(), InShard(ledger, shardKey))
  {
  }

  /** A shard's locators, sorted by row index. */
  ghost function ShardLocators(ledger: set<Locator>, shardKey: string): seq<Locator>
    requires OneEntryPerRow(ledger)
  {
    ShardDistinguished(ledger, shardKey);
    Sort(InShard(ledger, shardKey), LocatorKey())
  }

  /** `table.take(row indexes)`. */
  function TakeRows(rows: seq<Row>, locators: seq<Locator>): (r: seq<Row>)
    requires forall i :: 0 <= i < |locators| ==> locators[i].rowIndex < |rows|
    ensures |r| == |locators| && forall i :: 0 <= i < |locators| ==> r[i] == rows[locators[i].rowIndex]
  {
    seq(|locators|, i requires 0 <= i < |locators| => rows[locators[i].rowIndex])
  }

  /** Where a wanted row's entry points. */
  lemma FinalLocator(job: Job, l: Locator)
    requires JobReady(job) && l in FinalLedger(job)
    ensures var rows := Rows(job.corpus); var j := ShardOf(job.corpus, |job.corpus|, l.globalIndex);
      && l.globalIndex < |rows| && rows[l.globalIndex].coordinates == InCell(l.stratum)
      && j < |job.corpus| && l.shardKey == job.corpus[j].shardKey
      && l.rowIndex < |job.corpus[j].rows| && l.globalIndex == |Flat(job.corpus, j)| + l.rowIndex
      && job.corpus[j].rows[l.rowIndex] == rows[l.globalIndex]
      && l.stratum in JobPlan(job).quotas && l.globalIndex in Wanted(job, |rows|, l.stratum)
  {
    hide LocatorAt, FinalLedger, JobPlan, Wanted, Flat, ShardOf, Rows;
    FinalLedgerMembers(job, l);
    LocatorOfRow(job, l.globalIndex);
    var j := ShardOf(job.corpus, |job.corpus|, l.globalIndex);
    ShardLength(job.corpus, j);
    GlobalIndex(job.corpus, j, l.rowIndex);
  }

  lemma ShardLength(corpus: seq<Source>, j: nat)
    requires j < |corpus|
    ensures |Flat(corpus, j + 1)| == |Flat(corpus, j)| + |corpus[j].rows|
  {
  }

  lemma FinalOnePerRow(job: Job)
    requires JobReady(job) && DistinctKeys(job.corpus)
    ensures OneEntryPerRow(FinalLedger(job))
  {
    hide LocatorAt, FinalLedger, JobPlan, Wanted, Flat, ShardOf, Rows, JobReady;
    forall k, l | k in FinalLedger(job) && l in FinalLedger(job) && k.shardKey == l.shardKey && k.rowIndex == l.rowIndex
      ensures k == l
    {
      FinalLocator(job, k);
      FinalLocator(job, l);
      FinalLedgerMembers(job, k);
      FinalLedgerMembers(job, l);
    }
  }

  // ----- Reading one shard -----

  ghost function JobLocators(job: Job, j: nat): seq<Locator>
    requires JobReady(job) && DistinctKeys(job.corpus) && j < |job.corpus|
  {
    FinalOnePerRow(job);
    ShardLocators(FinalLedger(job), job.corpus[j].shardKey)
  }

  lemma JobLocatorsInRange(job: Job, j: nat)
    requires JobReady(job) && DistinctKeys(job.corpus) && j < |job.corpus|
    ensures var locators := JobLocators(job, j);
      && (forall i :: 0 <= i < |locators| ==> locators[i] in FinalLedger(job))
      && (forall i :: 0 <= i < |locators| ==> locators[i].shardKey == job.corpus[j].shardKey)
      && (forall i :: 0 <= i < |locators| ==> locators[i].rowIndex < |job.corpus[j].rows|)
      && (forall i, k :: 0 <= i < k < |locators| ==> locators[i].rowIndex < locators[k].rowIndex)
  {
    hide FinalLedger, Rows, Flat, ShardOf, JobPlan, Wanted, JobReady;
    var locators := JobLocators(job, j);
    forall i | 0 <= i < |locators|
      ensures locators[i] in FinalLedger(job) && locators[i].shardKey == job.corpus[j].shardKey
      ensures locators[i].rowIndex < |job.corpus[j].rows|
    {
      assert locators[i] in Elements(locators);
      FinalLocator(job, locators[i]);
    }
    forall i, k | 0 <= i < k < |locators| ensures locators[i].rowIndex < locators[k].rowIndex {
      assert Less(LocatorKey()(locators[i]), LocatorKey()(locators[k]));
    }
  }

  /** The wanted rows of shard `j`, as stored in the shard. */
  ghost function ShardRows(job: Job, j: nat): seq<Row>
    requires JobReady(job) && DistinctKeys(job.corpus) && j < |job.corpus|
  {
    JobLocatorsInRange(job, j);
    TakeRows(job.corpus[j].rows, JobLocators(job, j))
  }

  lemma NothingCollected(candidates: set<Locator>, shardKey: string)
    ensures Distinct<Locator>([]) && Elements<Locator>([]) == InShard(candidates, shardKey) - candidates
  {
  }

  lemma CollectStep(items: seq<Locator>, l: Locator, candidates: set<Locator>, left: set<Locator>, shardKey: string)
    requires Distinct(items) && Elements(items) == InShard(candidates, shardKey) - left
    requires l in left && left <= candidates
    ensures l.shardKey == shardKey ==>
      Distinct(items + [l]) && Elements(items + [l]) == InShard(candidates, shardKey) - (left - {l})
    ensures l.shardKey != shardKey ==> Elements(items) == InShard(candidates, shardKey) - (left - {l})
  {
    assert forall i :: 0 <= i < |items| ==> items[i] in Elements(items);
    assert Elements(items + [l]) == Elements(items) + {l};
  }

  /** Collect and sort the shard's locators from the ledger, in whatever order it is read. */
  method CollectLocators(candidates: set<Locator>, shardKey: string) returns (r: seq<Locator>)
    requires OneEntryPerRow(candidates)
    ensures r == ShardLocators(candidates, shardKey)
  {
    hide Distinct, Elements, InShard, OneEntryPerRow;
    NothingCollected(candidates, shardKey);
    var items: seq<Locator> := [];
    var left := candidates;
    while left != {}
      invariant left <= candidates
      invariant Distinct(items) && Elements(items) == InShard(candidates, shardKey) - left
      decreases |left|
    {
      var l :| l in left;
      CollectStep(items, l, candidates, left, shardKey);
      if l.shardKey == shardKey {
        items := items + [l];
      }
      left := left - {l};
    }
    ShardDistinguished(candidates, shardKey);
    r := SortList(items, LocatorKey());
  }

  /** Row group by row group, in groups of any size, taking the rows the locators name. */
  method ReadShard(rows: seq<Row>, locators: seq<Locator>) returns (r: seq<Row>)
    requires forall i :: 0 <= i < |locators| ==> locators[i].rowIndex < |rows|
    requires forall i, k :: 0 <= i < k < |locators| ==> locators[i].rowIndex < locators[k].rowIndex
    ensures r == TakeRows(rows, locators)
  {
    r := [];
    var next, rowOffset := 0, 0;
    while rowOffset < |rows|
      invariant rowOffset <= |rows| && next <= |locators|
      invariant r == TakeRows(rows, locators[..next])
      invariant next < |locators| ==> rowOffset <= locators[next].rowIndex
    {
      var groupRows: nat :| 1 <= groupRows <= |rows| - rowOffset by { assert 1 <= 1 <= |rows| - rowOffset; }
      var groupEnd := rowOffset + groupRows;
      while next < |locators| && locators[next].rowIndex < groupEnd
        invariant next <= |locators|
        invariant r == TakeRows(rows, locators[..next])
        invariant next < |locators| ==> rowOffset <= locators[next].rowIndex
      {
        r := r + [rows[rowOffset..groupEnd][locators[next].rowIndex - rowOffset]];
        next := next + 1;
      }
      rowOffset := groupEnd;
    }
    assert locators[..|locators|] == locators;
  }

  // ----- Appending a shard's rows to the heaps -----

  ghost function HeldIn(processed: set<Locator>, c: Cell): set<nat> {
    set l | l in processed && l.stratum == c :: l.globalIndex
  }

  ghost predicate HeldBy(job: Job, heaps: map<Cell, seq<Candidate<Row>>>, processed: set<Locator>)
    requires JobReady(job)
  {
    && heaps.Keys == JobPlan(job).quotas.Keys
    && forall c :: c in heaps ==> Lists(heaps[c], HeldIn(processed, c), JobKey(job), RowAt(Rows(job.corpus)))
  }

  function AsCandidate(l: Locator, row: Row): Candidate<Row> {
    Candidate(l.polygonOrder, l.rank, l.globalIndex, row)
  }

  lemma CandidateFaithful(job: Job, l: Locator, j: nat)
    requires JobReady(job) && l in FinalLedger(job)
    requires DistinctKeys(job.corpus) && j < |job.corpus| && l.shardKey == job.corpus[j].shardKey
    ensures l.rowIndex < |job.corpus[j].rows|
    ensures Faithful(AsCandidate(l, job.corpus[j].rows[l.rowIndex]), JobKey(job), RowAt(Rows(job.corpus)))
    ensures l.stratum in JobPlan(job).quotas
  {
    hide FinalLedger, Flat, ShardOf, Rows, JobPlan, Wanted, JobReady;
    FinalLocator(job, l);
    FinalLedgerMembers(job, l);
    LocatorOfRow(job, l.globalIndex);
  }

  lemma AppendStep(job: Job, heaps: map<Cell, seq<Candidate<Row>>>, processed: set<Locator>, l: Locator, j: nat)
    requires JobReady(job) && HeldBy(job, heaps, processed)
    requires DistinctKeys(job.corpus) && j < |job.corpus| && l.shardKey == job.corpus[j].shardKey
    requires processed <= FinalLedger(job) && l in FinalLedger(job) && l !in processed
    ensures l.stratum in heaps && l.rowIndex < |job.corpus[j].rows|
    ensures HeldBy(job,
      heaps[l.stratum := heaps[l.stratum] + [AsCandidate(l, job.corpus[j].rows[l.rowIndex])]], processed + {l})
  {
    hide FinalLedger, JobPlan, JobKey, RowAt, JobReady, Lists, Faithful;
    CandidateFaithful(job, l, j);
    var c := l.stratum;
    var x := AsCandidate(l, job.corpus[j].rows[l.rowIndex]);
    assert l.globalIndex !in HeldIn(processed, c) by {
      FinalLedgerMembers(job, l);
      forall k | k in processed ensures k.globalIndex != l.globalIndex {
        FinalLedgerMembers(job, k);
      }
    }
    ListsAppend(heaps[c], x, HeldIn(processed, c), JobKey(job), RowAt(Rows(job.corpus)));
    forall d | d in heaps
      ensures HeldIn(processed + {l}, d) == if d == c then HeldIn(processed, d) + {l.globalIndex} else HeldIn(processed, d)
    {
    }
  }

  lemma NothingHeld(job: Job)
    requires JobReady(job)
    ensures HeldBy(job, map c | c in JobPlan(job).quotas :: [], {})
  {
  }

  lemma FinalHeld(job: Job, c: Cell)
    requires JobReady(job) && c in JobPlan(job).quotas
    ensures HeldIn(FinalLedger(job), c) == RetainedRows(Rows(job.corpus), JobPlan(job), job.ranks, c)
  {
    hide FinalLedger, JobPlan, LocatorAt, Retained, JobReady, Stratum, ScannedIn;
    var n := |Rows(job.corpus)|;
    AllScanned(Rows(job.corpus), c);
    assert Wanted(job, n, c) == RetainedRows(Rows(job.corpus), JobPlan(job), job.ranks, c);
    hide Wanted, RetainedRows;
    forall g ensures g in HeldIn(FinalLedger(job), c) <==> g in Wanted(job, n, c) {
      if g in HeldIn(FinalLedger(job), c) {
        var l :| l in FinalLedger(job) && l.stratum == c && l.globalIndex == g;
        FinalLocator(job, l);
      }
      if g in Wanted(job, n, c) {
        WantedScanned(job, n, c);
        WantedLocator(job, n, c, g);
        FinalLedgerMembers(job, LocatorAt(job, g));
      }
    }
  }

  /** With every entry appended, each stratum lists exactly its retained rows. */
  lemma AllHeld(job: Job, heaps: map<Cell, seq<Candidate<Row>>>)
    requires JobReady(job) && HeldBy(job, heaps, FinalLedger(job))
    ensures ListsRetained(heaps, Rows(job.corpus), JobPlan(job), job.ranks)
  {
    hide FinalLedger, JobPlan, Lists, JobReady, RetainedRows, RowAt;
    forall c | c in JobPlan(job).quotas
      ensures ListsStratum(heaps[c], Rows(job.corpus), JobPlan(job), job.ranks, c)
    {
      FinalHeld(job, c);
    }
  }

  ghost function OfShards(ledger: set<Locator>, keys: set<string>): set<Locator> {
    set l | l in ledger && l.shardKey in keys
  }

  /** `_append_materialized_rows` for one shard. */
  method AppendRows(
    heaps: map<Cell, seq<Candidate<Row>>>, locators: seq<Locator>, taken: seq<Row>,
    ghost job: Job, ghost j: nat, ghost processed: set<Locator>)
    returns (r: map<Cell, seq<Candidate<Row>>>)
    requires JobReady(job) && DistinctKeys(job.corpus) && j < |job.corpus|
    requires HeldBy(job, heaps, processed) && processed <= FinalLedger(job)
    requires locators == JobLocators(job, j) && taken == ShardRows(job, j)
    requires forall l :: l in processed ==> l.shardKey != job.corpus[j].shardKey
    ensures HeldBy(job, r, processed + InShard(FinalLedger(job), job.corpus[j].shardKey))
  {
    hide HeldBy, FinalLedger, JobReady, DistinctKeys, ShardRows, JobLocators, InShard, TakeRows, AsCandidate, Elements, OneEntryPerRow;
    JobLocatorsInRange(job, j);
    ShardRowsTaken(job, j);
    r := heaps;
    ghost var done := processed;
    for i := 0 to |locators|
      invariant done == processed + Elements(locators[..i])
      invariant HeldBy(job, r, done) && done <= FinalLedger(job)
    {
      var l := locators[i];
      LocatorNew(locators, i, processed, job.corpus[j].shardKey);
      AppendStep(job, r, done, l, j);
      r := r[l.stratum := r[l.stratum] + [AsCandidate(l, taken[i])]];
      done := done + {l};
    }
    assert locators[..|locators|] == locators;
  }

  lemma ShardRowsTaken(job: Job, j: nat)
    requires JobReady(job) && DistinctKeys(job.corpus) && j < |job.corpus|
    ensures var locators, taken := JobLocators(job, j), ShardRows(job, j);
      && Elements<Locator>([]) == {} && Elements(locators) == InShard(FinalLedger(job), job.corpus[j].shardKey)
      && |taken| == |locators| && forall i :: 0 <= i < |locators| ==>
        locators[i].rowIndex < |job.corpus[j].rows| && taken[i] == job.corpus[j].rows[locators[i].rowIndex]
  {
    hide FinalLedger, JobReady, DistinctKeys, InShard;
    JobLocatorsInRange(job, j);
  }

  lemma LocatorNew(locators: seq<Locator>, i: nat, processed: set<Locator>, key: string)
    requires i < |locators| && locators[i].shardKey == key
    requires forall a, b :: 0 <= a < b < |locators| ==> locators[a].rowIndex < locators[b].rowIndex
    requires forall l :: l in processed ==> l.shardKey != key
    ensures locators[i] !in processed + Elements(locators[..i])
    ensures Elements(locators[..i + 1]) == Elements(locators[..i]) + {locators[i]}
  {
  }
}
