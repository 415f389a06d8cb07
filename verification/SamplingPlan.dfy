/** What the planning pass learns, and the plan both streaming forms build from it. */
module SamplingPlan {
  import opened Wrappers
  import opened Ranking
  import opened Sums
  import opened FairQueue
  import opened Apportionment
  import opened HeapSchedule
  import opened Queues
  import opened Sorting
  import opened SentenceTable
  import opened Selection
  import opened V2Sampling

  /** The tables the planners accept: the reference does not look for empty sentence IDs. */
  ghost predicate Plannable(rows: seq<Row>) {
    Acceptable(rows) && NonEmptyIds(rows)
  }

  /** The one difference: a row without a sentence ID passes the reference only. */
  lemma EmptyIdSplits()
    ensures var rows := [Row("", "p", Missing, None, "")]; Acceptable(rows) && !Plannable(rows)
  {
    var rows := [Row("", "p", Missing, None, "")];
    assert rows[0].sentenceId == "";
  }

  lemma PlannablePrefix(a: seq<Row>, b: seq<Row>)
    requires Plannable(a + b)
    ensures Plannable(a)
  {
    assert forall i :: 0 <= i < |a| ==> a[i] == (a + b)[i];
  }

  // ----- Sentence IDs -----

  ghost function IdSet(rows: seq<Row>): set<string> {
    set i | 0 <= i < |rows| :: rows[i].sentenceId
  }

  lemma IdStep(rows: seq<Row>, i: nat)
    requires i < |rows| && DistinctIds(rows[..i])
    ensures IdSet(rows[..i + 1]) == IdSet(rows[..i]) + {rows[i].sentenceId}
    ensures rows[i].sentenceId in IdSet(rows[..i]) ==> !DistinctIds(rows)
    ensures rows[i].sentenceId !in IdSet(rows[..i]) ==> DistinctIds(rows[..i + 1])
  {
    var before, after := rows[..i], rows[..i + 1];
    assert forall k :: 0 <= k < i ==> after[k] == before[k] == rows[k];
    assert after[i] == rows[i];
    forall v | v in IdSet(before) ensures v in IdSet(after) {
      var k :| 0 <= k < i && before[k].sentenceId == v;
      assert after[k].sentenceId == v;
    }
  }

  /** `INSERT INTO sentence_ids`: the primary key refuses a repeat. */
  method InsertIds(ids: set<string>, batch: seq<Row>, ghost seen: seq<Row>) returns (ok: bool, r: set<string>)
    requires ids == IdSet(seen) && DistinctIds(seen)
    ensures ok <==> DistinctIds(seen + batch)
    ensures ok ==> r == IdSet(seen + batch)
  {
    ghost var all := seen + batch;
    r := ids;
    assert all[..|seen|] == seen;
    for i := 0 to |batch|
      invariant DistinctIds(all[..|seen| + i]) && r == IdSet(all[..|seen| + i])
    {
      assert all[|seen| + i] == batch[i];
      IdStep(all, |seen| + i);
      if batch[i].sentenceId in r {
        return false, r;
      }
      r := r + {batch[i].sentenceId};
    }
    assert all[..|all|] == all;
    ok := true;
  }

  // ----- Stratum counts -----

  /** `sizes[stratum] = sizes.get(stratum, 0) + count` for every counted stratum. */
  function MergeCounts(sizes: Strata<Cell>, counts: Strata<Cell>): Strata<Cell> {
    map c | c in sizes.Keys + counts.Keys ::
      (if c in sizes then sizes[c] else 0) + (if c in counts then counts[c] else 0)
  }

  lemma SizesStep(rows: seq<Row>, i: nat)
    requires i < |rows|
    ensures StratumSizes(rows[..i + 1]) ==
      if Located(rows[i]) then AddRows(StratumSizes(rows[..i]), rows[i].coordinates.cell, 1) else StratumSizes(rows[..i])
  {
    assert rows[..i + 1][..i] == rows[..i];
  }

  lemma AddThenMerge(sizes: Strata<Cell>, counts: Strata<Cell>, c: Cell, n: Size)
    ensures AddRows(MergeCounts(sizes, counts), c, n) == MergeCounts(sizes, AddRows(counts, c, n))
  {
  }

  /** Counting batch by batch and adding up equals counting once. */
  lemma {:induction false} SizesConcat(a: seq<Row>, b: seq<Row>)
    ensures StratumSizes(a + b) == MergeCounts(StratumSizes(a), StratumSizes(b))
  {
    if b == [] {
      assert a + b == a;
      assert StratumSizes(b) == map[];
    } else {
      var n := |b| - 1;
      SizesConcat(a, b[..n]);
      assert (a + b)[..|a| + n] == a + b[..n];
      assert b == b[..n] + [b[n]];
      hide MergeCounts, AddRows;
      if Located(b[n]) {
        AddThenMerge(StratumSizes(a), StratumSizes(b[..n]), b[n].coordinates.cell, 1);
      }
    }
  }

  lemma MergeOneMore(sizes: Strata<Cell>, counts: Strata<Cell>, left: set<Cell>, c: Cell)
    requires c in left && c in counts
    ensures AddRows(MergeCounts(sizes, counts - left), c, counts[c]) == MergeCounts(sizes, counts - (left - {c}))
  {
    AddThenMerge(sizes, counts - left, c, counts[c]);
    assert AddRows(counts - left, c, counts[c]) == counts - (left - {c});
  }

  lemma MergeEnds(sizes: Strata<Cell>, counts: Strata<Cell>)
    ensures MergeCounts(sizes, counts - counts.Keys) == sizes
    ensures MergeCounts(sizes, counts - {}) == MergeCounts(sizes, counts)
  {
    assert counts - {} == counts;
  }

  method AddCounts(sizes: Strata<Cell>, counts: Strata<Cell>) returns (r: Strata<Cell>)
    ensures r == MergeCounts(sizes, counts)
  {
    hide MergeCounts, AddRows;
    r := sizes;
    var left := counts.Keys;
    MergeEnds(sizes, counts);
    while left != {}
      invariant left <= counts.Keys
      invariant r == MergeCounts(sizes, counts - left)
      decreases |left|
    {
      var c :| c in left;
      MergeOneMore(sizes, counts, left, c);
      r := AddRows(r, c, counts[c]);
      left := left - {c};
    }
  }

  // ----- The plan -----

  datatype Plan = Plan(
    polygonOrder: map<string, nat>,
    polygonMetadata: map<string, Metadata>,
    schedule: seq<Cell>,
    quotas: map<Cell, nat>,
    totalRows: nat)

  /** `Counter(schedule)`. */
  ghost function Quotas(schedule: seq<Cell>): map<Cell, nat> {
    map c | c in multiset(schedule) :: multiset(schedule)[c]
  }

  ghost function PlannedSchedule(sizes: Strata<Cell>, target: nat, ranks: Ranks): seq<Cell>
    requires CollisionFree(ranks)
  {
    SumNonNegative(sizes);
    Schedule(sizes, Share(sizes, 0), ranks.cell, Capped(target, Total(sizes)))
  }

  ghost function PlanFor(
    meta: map<string, Metadata>, sizes: Strata<Cell>, totalRows: nat, target: nat, ranks: Ranks): Plan
    requires CollisionFree(ranks)
  {
    var schedule := PlannedSchedule(sizes, target, ranks);
    Plan(PolygonOrder(meta, ranks), meta, schedule, Quotas(schedule), totalRows)
  }

  /** The plan of a whole table. */
  ghost function TablePlan(rows: seq<Row>, target: nat, ranks: Ranks): Plan
    requires CollisionFree(ranks) && AllAccepted(rows)
  {
    PlanFor(Polygons(rows), StratumSizes(rows), |rows|, target, ranks)
  }

  method Count(schedule: seq<Cell>) returns (quotas: map<Cell, nat>)
    ensures quotas == Quotas(schedule)
  {
    quotas := map[];
    for i := 0 to |schedule|
      invariant quotas == Quotas(schedule[..i])
    {
      var c := schedule[i];
      assert schedule[..i + 1] == schedule[..i] + [c];
      quotas := quotas[c := (if c in quotas then quotas[c] else 0) + 1];
    }
    assert schedule[..|schedule|] == schedule;
  }

  /** `_Planner.build` and `_build_plan`. */
  method BuildPlan(meta: map<string, Metadata>, sizes: Strata<Cell>, totalRows: nat, target: nat, ranks: Ranks)
    returns (plan: Plan)
    requires CollisionFree(ranks) && "" !in meta && target >= 1
    ensures plan == PlanFor(meta, sizes, totalRows, target, ranks)
  {
    var ordered := OrderedPolygonIds(meta, ranks);
    var order := Enumerate(ordered.value);
    var eligible := SumValues(sizes);
    SumNonNegative(sizes);
    var limit := if target <= eligible then target else eligible;
    var scheduled := WeightedSchedule(sizes, ranks.cell, limit);
    if limit > 0 {
      assert AsStrata(sizes) == sizes;
    }
    var quotas := Count(scheduled.value);
    plan := Plan(order, meta, scheduled.value, quotas, totalRows);
  }
}
