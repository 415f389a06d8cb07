# Proportional sampling, resumable labeling and their operator

A Dafny model of the parts of this repository whose correctness no test can settle: the
stratified samplers and the crash-restart protocol around them, the labeling run over the
nested sample, the outbox that mirrors its checkpoints, the protocol that replaces a queued
allocation, and the indexed joins.

`dafny verify dfyconfig.toml` checks the whole project.

## What is modelled

**Scheduling.** `FairQueue` says what repeated scanning picks: the unexhausted stratum of least
`(served + lead) / size`, then least rank. `HeapSchedule` is the heap merge of V2 (`lead` 0) and
`V1Sampling` the allocation of V1 (`lead` 1); both return what scanning returns. `Apportionment`
has their quota bounds: V2 meets the upper quota and V1 the lower one. Each meets the other one,
under every ranking, exactly for the strata with `(strata - 1) * size < total`.

**The V2 sampler, three times.** `Selection` defines the selection and `SelectionOrder` says what
it looks like: large polygons first, then polygon order and rank inside a cell, and how many rows
of each cell. `V2Sampling` is the in-memory form. `V2Bounded` makes two streaming passes with one
quota-bounded heap per stratum (`QuotaHeaps`, `Retention`) and returns the same rows.
`V2Resumable` does it shard by shard over a transactional ledger and can die at any durable write: `V2Ledger` and `V2Materialize` hold what
the tables mean, `V2Store` the durable state directory and one connection to it, and `CrashRuns`
runs any sequence of calls on one directory.

**Labeling.** `LabelStore` is the paired-file checkpoint store, `LabelRunner` the batch loop
against an engine, a disk and callbacks that may do anything, and `LabelGrowth` any sequence of
runs over growing selections.

**The immediate-start protocol.** `Replacement` is the protocol as a state machine over
scheduler events with durable facts; `EarliestStart` has the loops and the optimizer, each proved
to make only allowed steps, against a scheduler that answers anything.

**The outbox.** `CheckpointMirror` is the producer and the worker thread over the two marker
directories, one step at a time with crashes in between, and the methods with the worker running
between their steps.

**Joins.** `JoinIndex` has the integrity checks and the lookup dictionaries, `WikidataValues` the
semicolon lists of QIDs, `WikipediaJoin` and `WikivoyageJoin` the two joins against their nested
comprehensions.

## Main results

- `CrashRuns.RunCalls`: over every sequence of calls, crashes at any durable write, batch sizes and
  growing targets, each published file is the reference selection of the shards in key order.
- `V2Resumable.SelectShards`, `V2Bounded.SelectBounded`, `V2Sampling.SelectRows`: each form accepts
  exactly the inputs stated and returns the selection defined in `Selection`.
- `V2Ledger.LedgerKeepsWanted`, `V2Ledger.BatchCommits`, `V2Store.CacheHit`: what every commit keeps
  of the ledger, superseded candidates included, and why a cache entry can be trusted.
- `HeapSchedule.MergeStreams`, `FairQueue.GreedyUnique`, `Apportionment.UpperQuota`,
  `Apportionment.LowerQuota`, `Apportionment.QuotasExactly`: the fast scheduler is the slow one,
  the bounds of both samplers, and exactly which strata meet both quotas.
- `Selection.SelectNested`, `SelectionOrder.SelectedComeFirst`, `SelectionOrder.SelectionQuota`,
  `V1Sampling.PicksNested`, `V1Sampling.PicksBestRanked`, `V1Sampling.PicksQuota`: nesting, order
  and fairness of both selections.
- `LabelGrowth.RunAttempts`: over every sequence of stopped, killed and failing runs with growing
  targets, the checkpoints label exactly the first selected rows, batch by batch, or a torn
  directory lets nobody in.
- `EarliestStart.Attempt`, `EarliestStart.RecoverAfterCrash`, `Replacement.TrialsAccountedFor`,
  `Replacement.LostExactly`: one allocation is left to monitor, and over any crash history every
  other one was released, or is lost for one of two reasons.
- `CheckpointMirror.MarkerNeverLost`, `CheckpointMirror.UploadedAgainExactly`,
  `CheckpointMirror.NoLostWakeup`, `CheckpointMirror.RestartDelivers`: the outbox under any
  interleaving.
- `WikipediaJoin.JoinWikipedia`, `WikivoyageJoin.JoinWikivoyage`, `WikipediaJoin.JoinGuarantees`:
  the indexed joins are their nested comprehensions, the checks make every lookup succeed, and
  accepted rows agree about their article.

## How the world is modelled

- A rank (seeded SHA-256) is a function to the natural numbers that is injective on sentence IDs,
  on polygon IDs and on cells. A row's coordinates are missing, in a cell, or invalid.
- Priorities are compared as exact rationals. The floats of the original compare alike for strata
  of at most 2^26 rows: distinct fractions `a/n`, `b/m` then differ by at least `1/(n·m)`, which is
  above the rounding error.
- `heapq` is a list with a least-first contract; the tuple order is the original's.
- A shard identity stands for immutable rows, as the original assumes when it re-reads a shard. A
  fingerprint of a locator list stands for the list.
- A submission can raise before or after the scheduler accepted it.
- A crash is the death of the process at a durable write: a committed transaction, a renamed file.
  What is not committed, and all memory, is gone. `state.json` is one such write.
- Batches and row groups have any size the reader likes, up to the batch size.
- The stored planned prefix, scan position and cache targets are history variables: ghost fields
  that no code reads.
- Allocations are numbered freshly by the scheduler; its answers, the forecasts, the candidates
  and the times are arbitrary. The clock never goes back and a sleep lasts at least as long as
  asked.

## Where the code and its promises part

- The planners refuse empty sentence IDs, which the reference selection accepts
  (`SamplingPlan.EmptyIdSplits`); the three forms agree on every other table.
- A process that dies between creating the database and writing the first `state.json` closes the
  state directory for good (`CrashRuns.RunCalls`).
- A checkpoint store stops loading once it holds more than 1,000,000 batches
  (`LabelStore.IntactLoads`), and a write killed half way closes it, also through the temporary
  file it leaves behind.
- A batch can be mirrored twice by one process, exactly if it was queued before `start` was called
  (`CheckpointMirror.UploadedAgainExactly`); calling `start` first rules it out.
- A trial allocation can be lost, exactly when the run ends between submitting and recording it or
  the submission raises although the scheduler accepted it: the loop treats every exception of
  `submit` as a rejection and goes on with the next candidate (`Replacement.LostExactly`).
- V2's counts can fall short of a stratum's share rounded down, and V1's can exceed the share
  rounded up (`Apportionment.QuotasExactly`).

## Model

| member | source | states |
|---|---|---|
| FairQueue.ScheduleGreedy | src/osm_polygon_sentence_relevance/labeling/v2_sampling.py:76-101 | repeated scanning picks, at every step, the unexhausted stratum of least (priority, rank), and yields exactly min(limit, total) picks |
| FairQueue.GreedyUnique | src/osm_polygon_sentence_relevance/labeling/v2_sampling.py:61-101 | two sequences whose every pick is the scan's pick agree up to the shorter length, so neither dictionary order nor heap order can matter |
| FairQueue.ScheduleNested | src/osm_polygon_sentence_relevance/labeling/v2_sampling.py:61-101 | the schedule for a smaller limit is a prefix of the schedule for a larger one |
| FairQueue.FullScheduleServesAll | src/osm_polygon_sentence_relevance/labeling/v2_sampling.py:76-101 | a schedule as long as the total serves each stratum exactly its size |
| FairQueue.GreedyWithin | src/osm_polygon_sentence_relevance/labeling/v2_sampling.py:76-101 | no prefix serves a stratum beyond its size, and the counts add up to the prefix length |
| HeapSchedule.LeastIsNext | src/osm_polygon_sentence_relevance/labeling/v2_sampling.py:83-88 | the heap's least tuple is what a scan over every unexhausted stratum would pick |
| HeapSchedule.PopKeepsCurrent | src/osm_polygon_sentence_relevance/labeling/v2_sampling.py:85-100 | popping a stratum and pushing its next priority leaves one up-to-date entry for every unexhausted stratum |
| HeapSchedule.MergeStreams | src/osm_polygon_sentence_relevance/labeling/v2_sampling.py:76-101 | the heap merge returns the sequence repeated scanning returns, for any iteration order of the sizes |
| HeapSchedule.WeightedSchedule | src/osm_polygon_sentence_relevance/labeling/v2_sampling.py:61-101 | empty for a non-positive limit or no strata; an error exactly for a non-positive size; otherwise the scanned schedule |
| Apportionment.PairwiseBound | src/osm_polygon_sentence_relevance/labeling/v2_sampling.py:76-101 | in every prefix of either scheduler, stratum i is at most one pick ahead of stratum j's share |
| Apportionment.UpperQuota | src/osm_polygon_sentence_relevance/labeling/v2_sampling.py:76-101 | after k V2 picks out of N, served·N <= k·size + N − size for every stratum |
| Apportionment.LowerQuota | src/osm_polygon_sentence_relevance/labeling/sampling.py:88-109 | after k V1 picks out of N, every stratum has at least floor(k·size/N) |
| Apportionment.LagBound | src/osm_polygon_sentence_relevance/labeling/v2_sampling.py:76-101 | how far V2 can leave a stratum behind: served·N >= (k − (strata − 1))·size |
| Apportionment.LeadBound | src/osm_polygon_sentence_relevance/labeling/sampling.py:88-109 | how far V1 can let a stratum run ahead: served·N <= (k + (strata − 1))·size |
| Apportionment.QuotasExactly | src/osm_polygon_sentence_relevance/labeling/v2_sampling.py:61-101 | V2 always meets the upper quota and V1 the lower; each meets the other one, in every prefix and under every ranking of the strata, if and only if (strata − 1)·size < N |
| Apportionment.Starved | src/osm_polygon_sentence_relevance/labeling/v2_sampling.py:83-88 | otherwise V2 gives a stratum that ranks last nothing while a whole row is its share |
| Apportionment.Favoured | src/osm_polygon_sentence_relevance/labeling/sampling.py:88-109 | otherwise V1 gives a stratum that ranks first a whole row more than its share rounded up allows |
| Apportionment.TwoStrataSmall | src/osm_polygon_sentence_relevance/labeling/v2_sampling.py:61-101 | with at most two strata the condition always holds |
| Apportionment.ManyStrataNotSmall | src/osm_polygon_sentence_relevance/labeling/v2_sampling.py:61-101 | for every count of three or more strata there are sizes that violate it |
| Apportionment.V2MissesLowerQuota | src/osm_polygon_sentence_relevance/labeling/v2_sampling.py:76-101 | sizes 4, 1, 1 and three picks: V2 leaves a stratum more than a whole row below its share |
| Apportionment.V1ExceedsUpperQuota | src/osm_polygon_sentence_relevance/labeling/sampling.py:88-109 | sizes 4, 1, 1 and three picks: V1 takes a stratum more than a whole row above its share |
| V2Sampling.OrderedPolygonIds | src/osm_polygon_sentence_relevance/labeling/v2_sampling.py:182-217 | refuses an empty polygon ID; otherwise large polygons by rank, then the others merged proportionally over cells, for any iteration order of the metadata |
| V2Sampling.TablePolygons | src/osm_polygon_sentence_relevance/labeling/v2_sampling.py:220-238 | accepts exactly the tables whose rows pass the row checks and describe each polygon in one way, and returns each polygon's bucket and cell |
| V2Sampling.ConsistentStep | src/osm_polygon_sentence_relevance/labeling/v2_sampling.py:231-237 | comparing a row with the recorded metadata is comparing it with every earlier row of its polygon |
| V2Sampling.OrderedRowIndexes | src/osm_polygon_sentence_relevance/labeling/v2_sampling.py:241-265 | the row order is the schedule-merge of the cells' sorted rows; no queue is popped while empty |
| V2Sampling.HasDistinctIds | src/osm_polygon_sentence_relevance/labeling/v2_sampling.py:285-287 | tells exactly whether no sentence ID occurs twice |
| V2Sampling.SelectRows | src/osm_polygon_sentence_relevance/labeling/v2_sampling.py:275-291 | accepts exactly a positive target and an acceptable table, and returns the target's prefix of the row order, which `SelectionOrder` describes |
| Selection.OrderedPolygonsLargeFirst | src/osm_polygon_sentence_relevance/labeling/v2_sampling.py:196-217 | the polygon order holds each polygon once, every large one before every other |
| Selection.OrderedPolygonsComplete | src/osm_polygon_sentence_relevance/labeling/v2_sampling.py:196-217 | the polygon order names exactly the polygons of the metadata |
| Selection.CandidateOrderComplete | src/osm_polygon_sentence_relevance/labeling/v2_sampling.py:241-265 | the row order holds each located row exactly once |
| Selection.OrderedRowsSortCells | src/osm_polygon_sentence_relevance/labeling/v2_sampling.py:251-265 | the rows of one cell, as they come in the row order, are the sorted enumeration of the cell |
| SelectionOrder.PolygonsByRank | src/osm_polygon_sentence_relevance/labeling/v2_sampling.py:196-217 | the large polygons stand by increasing rank, and so do the other polygons of each cell |
| SelectionOrder.CellOrder | src/osm_polygon_sentence_relevance/labeling/v2_sampling.py:251-265 | of two rows of a cell, the one of the earlier polygon comes first, and of one polygon's rows the one of smaller sentence rank |
| SelectionOrder.SelectedComeFirst | src/osm_polygon_sentence_relevance/labeling/v2_sampling.py:275-291 | what is selected of a cell comes before everything of it that is not: large polygons first, then polygon order, then rank |
| SelectionOrder.SelectedRowsOrdered | src/osm_polygon_sentence_relevance/labeling/v2_sampling.py:275-291 | the selected rows of a cell stand in that order |
| SelectionOrder.SelectionQuota | src/osm_polygon_sentence_relevance/labeling/v2_sampling.py:61-101 | of the selected rows no cell has a whole row more than its share, and none lags by more than its rows counted once for every other cell |
| Selection.SelectNested | src/osm_polygon_sentence_relevance/labeling/v2_sampling.py:275-291 | the selection has min(target, eligible) distinct located rows and is a prefix of the selection for any larger target |
| Selection.SelectedRowsNested | src/osm_polygon_sentence_relevance/labeling/v2_sampling.py:275-291 | the selected rows themselves are a prefix of those for a larger target |
| Queues.MergeKeepsOrder | src/osm_polygon_sentence_relevance/labeling/v2_sampling.py:259-265 | draining queues along a schedule takes the first items of each queue in their own order |
| Queues.MergeSameQueue | src/osm_polygon_sentence_relevance/labeling/v2_sampling.py:259-265 | two items of one stratum come out in the order of its queue |
| Queues.MergeTruncated | src/osm_polygon_sentence_relevance/labeling/v2_bounded_sampling.py:209-233 | only the first items of each queue, as many as the schedule asks for, matter to the result |
| Queues.Drain | src/osm_polygon_sentence_relevance/labeling/v2_sampling.py:216-265 | popping along a fitting schedule never meets an empty queue and gives the merge |
| SamplingPlan.InsertIds | src/osm_polygon_sentence_relevance/labeling/v2_bounded_sampling.py:94-113 | inserting a batch succeeds exactly when no ID repeats within it or among earlier rows |
| SamplingPlan.SizesConcat | src/osm_polygon_sentence_relevance/labeling/v2_bounded_sampling.py:84-123 | stratum sizes of two parts added up are those of the whole |
| SamplingPlan.BuildPlan | src/osm_polygon_sentence_relevance/labeling/v2_resumable_sampling.py:397-411 | polygon order, schedule, quotas and total depend only on the metadata and the sizes, not on the order they are read in |
| SamplingPlan.EmptyIdSplits | src/osm_polygon_sentence_relevance/labeling/v2_bounded_sampling.py:142-162 | a row with an empty sentence ID is accepted by the reference and refused by the planners |
| QuotaHeaps.RootIsWorst | src/osm_polygon_sentence_relevance/labeling/v2_bounded_sampling.py:188-200 | the root of a heap of negated keys is the worst retained row |
| QuotaHeaps.Offer | src/osm_polygon_sentence_relevance/labeling/v2_bounded_sampling.py:188-200 | offering a row to a quota-bounded heap of the best rows gives the heap of the best rows including it, and reports the evicted row |
| Ranking.BestOffer | src/osm_polygon_sentence_relevance/labeling/v2_bounded_sampling.py:188-200 | replacing the worst of a full heap, exactly when the new key is smaller, keeps the quota-best set |
| Ranking.BestOfLedger | src/osm_polygon_sentence_relevance/labeling/v2_resumable_sampling.py:414-435 | the quota-best of any ledger between the quota-best set and all rows is the quota-best set |
| Ranking.BestIsPrefix | src/osm_polygon_sentence_relevance/labeling/v2_bounded_sampling.py:209-219 | the quota-best rows in sorted order are the first quota rows of the sorted stratum |
| Retention.RetainRow | src/osm_polygon_sentence_relevance/labeling/v2_bounded_sampling.py:176-200 | one scanned row updates its own stratum's heap and no other |
| Retention.RetainedRowsArePrefix | src/osm_polygon_sentence_relevance/labeling/v2_bounded_sampling.py:209-219 | a sorted heap is the quota-long prefix of the reference's row queue |
| Retention.BoundedMerge | src/osm_polygon_sentence_relevance/labeling/v2_bounded_sampling.py:165-237 | draining the short queues along the bounded schedule gives the reference row order cut at the target |
| Retention.WriteSelected | src/osm_polygon_sentence_relevance/labeling/v2_bounded_sampling.py:203-252 | writing heaps that list each stratum's retained rows gives exactly the reference selection, whatever the flush size |
| V2Bounded.Planner.Observe | src/osm_polygon_sentence_relevance/labeling/v2_bounded_sampling.py:84-123 | a batch is accepted exactly when the rows so far, it included, are plannable; the planner then describes those rows |
| V2Bounded.CheckBatch | src/osm_polygon_sentence_relevance/labeling/v2_bounded_sampling.py:84-113 | the row loop accepts exactly consistent rows with non-empty IDs and yields their metadata and counts |
| V2Bounded.RetainCandidates | src/osm_polygon_sentence_relevance/labeling/v2_bounded_sampling.py:165-200 | the streaming second pass ends with the quota-best rows of every scheduled stratum, for any batch sizes, and after every row holds no more rows than the result can have |
| V2Bounded.HeldRowsBounded | src/osm_polygon_sentence_relevance/labeling/v2_bounded_sampling.py:165-200 | at every point of the stream the heaps hold at most min(target, eligible) rows |
| V2Bounded.SelectBounded | src/osm_polygon_sentence_relevance/labeling/v2_bounded_sampling.py:255-291 | succeeds exactly on positive arguments and a plannable table, and then returns the reference selection, for every batch size |
| ShardCorpus.SortShards | src/osm_polygon_sentence_relevance/labeling/v2_resumable_sampling.py:111-114 | sorting fails exactly on a repeated shard key and otherwise lists the same shards in key order |
| ShardCorpus.LexMeaning | src/osm_polygon_sentence_relevance/labeling/v2_resumable_sampling.py:111-114 | key order: the first difference decides, and a key comes before its continuations |
| ShardCorpus.AscendingUnique | src/osm_polygon_sentence_relevance/labeling/v2_resumable_sampling.py:111-114 | a set of shards has one key order |
| ShardCorpus.ShardMapDetermines | src/osm_polygon_sentence_relevance/labeling/v2_resumable_sampling.py:836-846 | equal identity maps mean equal shard lists in key order |
| ShardCorpus.GlobalIndex | src/osm_polygon_sentence_relevance/labeling/v2_resumable_sampling.py:480-520 | offset plus local row index is the row's position in the concatenated table |
| V2Ledger.BatchOffers | src/osm_polygon_sentence_relevance/labeling/v2_resumable_sampling.py:517-554 | recording one heap change in the pending deletes and inserts keeps the batch faithful to the quota-best rows: only rows that were to be kept when scanned are inserted, and every earlier row that is superseded is deleted |
| V2Ledger.BatchCommits | src/osm_polygon_sentence_relevance/labeling/v2_resumable_sampling.py:555-562 | committing deletes before inserts keeps the ledger valid (its rows genuine, every quota-best row present), no insert collides with a kept row, and no earlier entry stays that the batch superseded |
| V2Ledger.LedgerKeepsWanted | src/osm_polygon_sentence_relevance/labeling/v2_resumable_sampling.py:414-435 | even with superseded candidates, the quota-best rows of the ledger are the quota-best rows of everything scanned |
| V2Ledger.CompactionExact | src/osm_polygon_sentence_relevance/labeling/v2_resumable_sampling.py:358-391 | keeping the heaps' rows leaves exactly the quota-best rows in the ledger |
| V2Ledger.ShardKeyPlanned | src/osm_polygon_sentence_relevance/labeling/v2_resumable_sampling.py:483-487 | once planning is done every shard's stored offset is the number of rows before it, and its stored row count its length |
| V2Ledger.PlanCommits | src/osm_polygon_sentence_relevance/labeling/v2_resumable_sampling.py:275-291 | committing a shard's scan moves the planned prefix on by one: IDs, metadata, sizes and offset are those of a one-pass scan |
| V2Ledger.ProgressTotal | src/osm_polygon_sentence_relevance/labeling/v2_resumable_sampling.py:868-869 | the stored row counts add up to the next shard's offset |
| V2Ledger.BatchTablesValid | src/osm_polygon_sentence_relevance/labeling/v2_resumable_sampling.py:555-562 | one retention commit takes valid tables to valid tables with the batch's rows scanned |
| V2Ledger.RetainedTablesValid | src/osm_polygon_sentence_relevance/labeling/v2_resumable_sampling.py:293-299 | marking a fully scanned shard keeps the tables valid |
| V2Ledger.ClearedTablesValid | src/osm_polygon_sentence_relevance/labeling/v2_resumable_sampling.py:346-349 | clearing candidates and retention marks leaves valid tables, nothing scanned, for any target |
| V2Ledger.CompactedTablesValid | src/osm_polygon_sentence_relevance/labeling/v2_resumable_sampling.py:358-391 | compaction keeps the tables valid and makes the ledger exact |
| V2Materialize.ExactIsFinal | src/osm_polygon_sentence_relevance/labeling/v2_resumable_sampling.py:939-942 | an exact ledger of a full scan is the final ledger of the job, whatever crashes came before |
| V2Materialize.FinalLedgerMonotone | src/osm_polygon_sentence_relevance/labeling/v2_resumable_sampling.py:713-720 | the final ledger only grows with the target, so a shard's locator lists are nested |
| V2Materialize.CollectLocators | src/osm_polygon_sentence_relevance/labeling/v2_resumable_sampling.py:588-592 | collecting a shard's locators in any order and sorting by row index gives one list |
| V2Materialize.ReadShard | src/osm_polygon_sentence_relevance/labeling/v2_resumable_sampling.py:620-658 | reading in row groups of any sizes takes exactly the rows the locators name, in their order |
| V2Materialize.AppendRows | src/osm_polygon_sentence_relevance/labeling/v2_resumable_sampling.py:786-792 | a shard's rows join the lists of their own strata under their own keys |
| V2Materialize.AllHeld | src/osm_polygon_sentence_relevance/labeling/v2_resumable_sampling.py:579-670 | with every shard appended, each stratum lists exactly its retained rows |
| V2Store.CacheHit | src/osm_polygon_sentence_relevance/labeling/v2_resumable_sampling.py:723-755 | a cache entry accepted for these locators holds what reading the shard would give, even when rows and metadata were written for different targets |
| V2Store.CacheGrows | src/osm_polygon_sentence_relevance/labeling/v2_resumable_sampling.py:859-864 | enlarging the target keeps every cache entry valid |
| V2Store.SamplingStore.constructor | src/osm_polygon_sentence_relevance/labeling/v2_resumable_sampling.py:826-833 | a fresh state directory holds nothing |
| V2Store.PersistentPlanner.constructor | src/osm_polygon_sentence_relevance/labeling/v2_resumable_sampling.py:128-191 | opening creates the database and loads exactly the committed tables |
| V2Store.PersistentPlanner.Begin | src/osm_polygon_sentence_relevance/labeling/v2_resumable_sampling.py:203-206 | a transaction starts from the committed tables |
| V2Store.PersistentPlanner.Rollback | src/osm_polygon_sentence_relevance/labeling/v2_resumable_sampling.py:314-325 | memory is reset to the committed tables |
| V2Store.PersistentPlanner.Observe | src/osm_polygon_sentence_relevance/labeling/v2_resumable_sampling.py:208-273 | inside a transaction, a batch is accepted exactly when the rows so far stay plannable, and then the working tables describe them |
| V2Store.PersistentPlanner.FinishPlanningShard | src/osm_polygon_sentence_relevance/labeling/v2_resumable_sampling.py:275-291 | one commit publishes the shard's scan, its row count and its offset |
| V2Store.PersistentPlanner.CommitBatch | src/osm_polygon_sentence_relevance/labeling/v2_resumable_sampling.py:555-562 | one commit applies the deletes, the inserts and the new row offset |
| V2Store.PersistentPlanner.FinishRetainingShard | src/osm_polygon_sentence_relevance/labeling/v2_resumable_sampling.py:293-299 | one commit marks the shard retained |
| V2Store.PersistentPlanner.ClearCandidates | src/osm_polygon_sentence_relevance/labeling/v2_resumable_sampling.py:346-349 | one commit empties the ledger and resets retention |
| V2Store.PersistentPlanner.CompactCandidates | src/osm_polygon_sentence_relevance/labeling/v2_resumable_sampling.py:358-391 | one commit drops every candidate outside the keep list |
| V2Resumable.PlanShard | src/osm_polygon_sentence_relevance/labeling/v2_resumable_sampling.py:872-899 | a shard is scanned in batches of any size and committed whole, or rolled back with a table that is not plannable |
| V2Resumable.RetainLedgerRow | src/osm_polygon_sentence_relevance/labeling/v2_resumable_sampling.py:492-554 | one row of the scan updates heap and pending writes together |
| V2Resumable.RetainBatch | src/osm_polygon_sentence_relevance/labeling/v2_resumable_sampling.py:473-566 | one batch ends in one commit that keeps heaps and ledger at the same point of the scan |
| V2Resumable.RetainShard | src/osm_polygon_sentence_relevance/labeling/v2_resumable_sampling.py:438-576 | continues behind the stored row offset with any batch size, and ends with the shard marked and the heaps complete up to its end |
| V2Resumable.RecoverHeaps | src/osm_polygon_sentence_relevance/labeling/v2_resumable_sampling.py:414-434 | reading the ledger in any order rebuilds the heaps of everything scanned |
| V2Resumable.HeapsFromDatabase | src/osm_polygon_sentence_relevance/labeling/v2_resumable_sampling.py:414-435 | rebuilding and compacting after a crash restores the heaps |
| V2Resumable.Compact | src/osm_polygon_sentence_relevance/labeling/v2_resumable_sampling.py:935-938 | after compaction the ledger is exact |
| V2Resumable.LoadCached | src/osm_polygon_sentence_relevance/labeling/v2_resumable_sampling.py:723-755 | an entry is loaded exactly when its metadata names this identity and these locators, and then equals reading the shard |
| V2Resumable.WriteCached | src/osm_polygon_sentence_relevance/labeling/v2_resumable_sampling.py:758-783 | rows first, then metadata: dying in between leaves a valid cache, finishing leaves a current entry |
| V2Resumable.MaterializeShard | src/osm_polygon_sentence_relevance/labeling/v2_resumable_sampling.py:588-670 | a current cache entry is used as it is, anything else is read from the source and cached, and both give the shard's rows |
| V2Resumable.Materialize | src/osm_polygon_sentence_relevance/labeling/v2_resumable_sampling.py:579-670 | any mix of present, absent and older cache entries gives the retained rows of every stratum |
| V2Resumable.PlanNext | src/osm_polygon_sentence_relevance/labeling/v2_resumable_sampling.py:870-906 | a shard whose scan is committed is skipped, any other is scanned at the offset that follows the planned prefix |
| V2Resumable.PlanAll | src/osm_polygon_sentence_relevance/labeling/v2_resumable_sampling.py:868-906 | from any planned prefix, planning completes or the concatenated table is not plannable |
| V2Resumable.StartOffset | src/osm_polygon_sentence_relevance/labeling/v2_resumable_sampling.py:868-869 | the next offset is the length of the planned prefix |
| V2Resumable.PlanRun | src/osm_polygon_sentence_relevance/labeling/v2_resumable_sampling.py:397-411 | the plan built from the reloaded tables is the plan of the concatenated table |
| V2Resumable.RetainAll | src/osm_polygon_sentence_relevance/labeling/v2_resumable_sampling.py:908-938 | from any interrupted scan, retention completes with an exact ledger |
| V2Resumable.WritePhase | src/osm_polygon_sentence_relevance/labeling/v2_resumable_sampling.py:673-686 | the new phase is recorded; seed, target and shards stay as they were |
| V2Resumable.ValidateShards | src/osm_polygon_sentence_relevance/labeling/v2_resumable_sampling.py:111-124 | accepts exactly non-empty shard lists with distinct, non-empty keys and identities, and returns them in key order |
| V2Resumable.CheckState | src/osm_polygon_sentence_relevance/labeling/v2_resumable_sampling.py:831-851 | lets a call in exactly when seed and shard identities match and the target does not shrink, or when nothing was ever started |
| V2Resumable.GrowthValid | src/osm_polygon_sentence_relevance/labeling/v2_resumable_sampling.py:859-864 | both durable writes of a target growth leave a valid store, for the old and the new target |
| V2Resumable.OpenState | src/osm_polygon_sentence_relevance/labeling/v2_resumable_sampling.py:853-866 | a run starts on the job it was asked for; dying anywhere inside leaves a valid store of the same shards and seed |
| V2Resumable.Publish | src/osm_polygon_sentence_relevance/labeling/v2_resumable_sampling.py:939-965 | the published file is the reference selection of the concatenated shards |
| V2Resumable.RunPhases | src/osm_polygon_sentence_relevance/labeling/v2_resumable_sampling.py:868-966 | the phases publish the reference selection, or refuse a table that is not plannable, or die leaving a valid store |
| V2Resumable.SelectShards | src/osm_polygon_sentence_relevance/labeling/v2_resumable_sampling.py:795-969 | admitted exactly when the arguments are valid, the output is fresh and the stored state matches; then it publishes the reference selection at its target, refuses an unplannable table, or dies leaving a valid store with the identity frozen, or an untouched one |
| CrashRuns.FilesNested | src/osm_polygon_sentence_relevance/labeling/v2_resumable_sampling.py:795-969 | outputs ever published from one state directory are prefixes of one another |
| CrashRuns.RunCall | src/osm_polygon_sentence_relevance/labeling/v2_resumable_sampling.py:795-969 | one call keeps every earlier output and adds at most its own |
| CrashRuns.RunCalls | src/osm_polygon_sentence_relevance/labeling/v2_resumable_sampling.py:795-969 | over any sequence of calls and crashes every published file is a reference selection; with growing targets and fixed shards and seed every call that is not killed completes, unless an earlier one died between creating the database and writing state.json, after which none is let in; deaths before that leave the directory open |
| V1Sampling.Allocate | src/osm_polygon_sentence_relevance/labeling/sampling.py:88-109 | fails exactly when the target exceeds the rows to hand out, and otherwise serves the least prospective fraction each time |
| V1Sampling.AllocationQuota | src/osm_polygon_sentence_relevance/labeling/sampling.py:88-109 | allocations add up to the target, stay within capacities and reach floor(target·capacity/total) |
| V1Sampling.AllocationNested | src/osm_polygon_sentence_relevance/labeling/sampling.py:91-96 | a larger target never takes a row from a stratum |
| V1Sampling.SelectStratified | src/osm_polygon_sentence_relevance/labeling/sampling.py:112-168 | accepts exactly valid targets, distinct IDs and valid coordinates (or, without coordinates, a table within the target), and returns the picked rows in table order |
| V1Sampling.PicksBestRanked | src/osm_polygon_sentence_relevance/labeling/sampling.py:162-167 | of one cell every picked row has a smaller sentence rank than every row left out |
| V1Sampling.TableOrder | src/osm_polygon_sentence_relevance/labeling/sampling.py:168 | the selection lists exactly the picked rows, by increasing position |
| V1Sampling.PicksQuota | src/osm_polygon_sentence_relevance/labeling/sampling.py:112-168 | exactly min(target, eligible) rows are picked and every cell gets at least its share rounded down |
| V1Sampling.PicksNested | src/osm_polygon_sentence_relevance/labeling/sampling.py:91-96 | the rows picked for a smaller target are among those picked for a larger one |
| V1Sampling.AllPicked | src/osm_polygon_sentence_relevance/labeling/sampling.py:148-149 | returning every eligible row of a small table is the same selection |
| V1Sampling.TakeShares | src/osm_polygon_sentence_relevance/labeling/sampling.py:155-167 | the group loop collects each cell's best-ranked rows, as many as allocated |
| V1Sampling.ScanCoordinates | src/osm_polygon_sentence_relevance/labeling/sampling.py:132-147 | groups exactly the located rows and fails exactly on an invalid coordinate |
| LabelStore.TornNeverLoads | src/osm_polygon_sentence_relevance/labeling/v2_checkpoint.py:75-86 | a directory with a stray or unpaired file is refused |
| LabelStore.IntactLoads | src/osm_polygon_sentence_relevance/labeling/v2_checkpoint.py:31 | a directory of complete batches 0 .. n loads if and only if n <= 1,000,000: file names carry six digits |
| LabelStore.ForeignNeverLoads | src/osm_polygon_sentence_relevance/labeling/v2_checkpoint.py:155-156 | a directory written for one run identity loads for no other |
| LabelStore.TamperedNeverLoads | src/osm_polygon_sentence_relevance/labeling/v2_checkpoint.py:157-166 | a sealed batch whose rows were changed loads no more, unless digest and row count agree |
| LabelStore.Appended | src/osm_polygon_sentence_relevance/labeling/v2_checkpoint.py:93-139 | a new batch of unseen sentences lands behind the others, which stay as they are |
| LabelStore.CheckpointStore.constructor | src/osm_polygon_sentence_relevance/labeling/v2_checkpoint.py:66-73 | a new store holds nothing |
| LabelStore.CheckpointStore.BatchIndexes | src/osm_polygon_sentence_relevance/labeling/v2_checkpoint.py:75-91 | accepts exactly paired, six-digit, stray-free directories and returns their indexes in order |
| LabelStore.CheckpointStore.LoadAll | src/osm_polygon_sentence_relevance/labeling/v2_checkpoint.py:141-183 | accepts exactly the directories whose batches match their metadata and repeat no sentence, and returns the records in batch order |
| LabelStore.CheckpointStore.WriteBatch | src/osm_polygon_sentence_relevance/labeling/v2_checkpoint.py:93-139 | refuses an empty, repeating or existing batch; a write that fails or is killed leaves the directory as it was, with the whole batch, or with one half of it and everything else untouched |
| LabelStore.NoRepeats | src/osm_polygon_sentence_relevance/labeling/v2_checkpoint.py:171-173 | tells exactly whether the records seen so far and these repeat no sentence |
| LabelRunner.PendingIsRest | src/osm_polygon_sentence_relevance/labeling/v2_runner.py:118 | the pending rows are the input rows without a checkpoint, each once |
| LabelRunner.PendingAfterPrefix | src/osm_polygon_sentence_relevance/labeling/v2_runner.py:118 | when the labeled rows are the first m, the pending ones are the rest in order |
| LabelRunner.PendingInOrder | src/osm_polygon_sentence_relevance/labeling/v2_runner.py:118 | pending rows stand in table order |
| LabelRunner.CheckAnswer | src/osm_polygon_sentence_relevance/labeling/v2_runner.py:133-141 | accepts exactly an answer with one record per row of the batch |
| LabelRunner.RunBatch | src/osm_polygon_sentence_relevance/labeling/v2_runner.py:127-166 | whatever the engine, the disk and the callbacks do, a batch is stored whole, not at all, or half, which closes the directory and touches no earlier file |
| LabelRunner.StoreTakes | src/osm_polygon_sentence_relevance/labeling/v2_runner.py:142-144 | a batch of unlabeled rows is never refused by the store and keeps the indexes contiguous |
| LabelRunner.Run | src/osm_polygon_sentence_relevance/labeling/v2_runner.py:104-197 | refused exactly for a wrong batch size, repeated input IDs, an unreadable store or checkpointed IDs outside the input; otherwise each new batch file holds records of exactly the next batch-size pending rows, and the run returns at the first boundary where a stop is requested, or with everything labeled |
| LabelRunner.FullBatches | src/osm_polygon_sentence_relevance/labeling/v2_runner.py:123-127 | every new batch but the last has exactly batch-size records |
| LabelGrowth.SelectedIdsNested | src/osm_polygon_sentence_relevance/labeling/cli.py:585-589 | the IDs to label at a smaller target are the first ones at a larger target |
| LabelGrowth.PrefixGrows | src/osm_polygon_sentence_relevance/labeling/v2_runner.py:118-144 | if the checkpoints hold the first rows of the selection, so they do after any run |
| LabelGrowth.RunAttempt | src/osm_polygon_sentence_relevance/labeling/v2_runner.py:104-197 | one run over a grown selection is never refused for absent IDs and leaves the first rows of the selection labeled, or a torn directory |
| LabelGrowth.RunAttempts | src/osm_polygon_sentence_relevance/labeling/v2_runner.py:104-197 | over any sequence of stopped, killed or failing runs with growing targets: after each, no earlier batch file has changed, the new ones hold whole batches up to the first stop request, and the directory is torn, and nothing loads it, or sealed from zero, no sentence twice, labeling exactly the first selected rows; an unstopped run ends with exactly the selected IDs |
| Replacement.StepKeepsInv | src/osm_polygon_sentence_relevance/operator/earliest_start.py:147-262 | every allowed step keeps: the durable facts name every allocation that may be alive, up to one submitted and not yet recorded and those lost earlier |
| Replacement.InvAlways | src/osm_polygon_sentence_relevance/operator/cli.py:909-958 | so at every moment of a run, hence at every possible crash |
| Replacement.AtMostOneBeside | src/osm_polygon_sentence_relevance/operator/earliest_start.py:165-167 | beside the current allocation at most one that is not lost may be alive, so at most one more than were ever lost |
| Replacement.FallbackCancelledLast | src/osm_polygon_sentence_relevance/operator/earliest_start.py:218-225 | the fallback is cancelled only after a trial was adopted |
| Replacement.AdoptedWhileRunning | src/osm_polygon_sentence_relevance/operator/earliest_start.py:216-218 | a trial is adopted only when the last answer about it was RUNNING |
| Replacement.TrialsAccountedFor | src/osm_polygon_sentence_relevance/operator/earliest_start.py:174-261 | over any history of crashes, every allocation the scheduler accepted is current, the pending trial or the open fallback, was cancelled or seen over, or is lost |
| Replacement.InvOverHistories | src/osm_polygon_sentence_relevance/operator/cli.py:705-958 | the invariant survives every history of crashes and restarts |
| Replacement.LostExactly | src/osm_polygon_sentence_relevance/operator/earliest_start.py:187-193 | over any history, an allocation is lost if and only if its submission raised after the scheduler had accepted it or its run ended between submission and record |
| EarliestStart.PollOnce | src/osm_polygon_sentence_relevance/operator/earliest_start.py:198-261 | a running fallback keeps it, a running trial takes over, and polling goes on only for a trial that is alive, inside its window and before its deadline; a trial still alive is cancelled when dropped |
| EarliestStart.AskTrial | src/osm_polygon_sentence_relevance/operator/earliest_start.py:215-261 | the trial's answer decides between adoption, dropping and another poll |
| EarliestStart.DropTrial | src/osm_polygon_sentence_relevance/operator/earliest_start.py:201-202 | a dropped trial is cancelled or over, and cleared |
| EarliestStart.PollTrial | src/osm_polygon_sentence_relevance/operator/earliest_start.py:198-261 | a trial is given up only for its last answer or at its deadline, every sleep lasts a poll interval or what is left until the deadline, and it is polled at most floor(remaining/poll) + 2 times when the clock advances by at least each sleep |
| EarliestStart.SleepsLeft | src/osm_polygon_sentence_relevance/operator/earliest_start.py:253-261 | sleeps that did not reach the deadline leave room for the next poll |
| EarliestStart.SubmitTrial | src/osm_polygon_sentence_relevance/operator/cli.py:872-907 | nothing is submitted unless the fallback was just seen queued; a submission that raises may have reserved an allocation all the same |
| EarliestStart.OpenCandidate | src/osm_polygon_sentence_relevance/operator/earliest_start.py:174-193 | the fallback is asked about first; a running one ends the search, and a trial is submitted at most once, on the candidate's own site |
| EarliestStart.RecordAndPoll | src/osm_polygon_sentence_relevance/operator/earliest_start.py:194-261 | a submitted trial is recorded before it is first polled and has the whole trial time to start, unless its last answer is final or out of window |
| EarliestStart.TryCandidate | src/osm_polygon_sentence_relevance/operator/earliest_start.py:174-261 | a candidate starts with no trial pending and ends with none; a trial it submitted had its time |
| EarliestStart.Resume | src/osm_polygon_sentence_relevance/operator/earliest_start.py:165-261 | the recorded trial is taken up at once and has until its recorded deadline |
| EarliestStart.Attempt | src/osm_polygon_sentence_relevance/operator/earliest_start.py:147-262 | errors exactly on non-positive arguments; the recorded trial is taken up first, then the candidates are tried one by one in their order, all of them unless a trial or the fallback runs, each with its whole trial time; the fallback is cancelled if and only if the outcome is replaced, the outcome names the one allocation left, and every trial's polls are bounded |
| EarliestStart.SettleAdoption | src/osm_polygon_sentence_relevance/operator/cli.py:713-747 | an adoption whose fallback is not recorded as cancelled is settled: the fallback is asked about and cancelled if alive before that is recorded |
| EarliestStart.Optimize | src/osm_polygon_sentence_relevance/operator/cli.py:671-978 | ends with one allocation to monitor; a recorded trial is taken up before anything else, an unfinished adoption is completed, an adopted allocation is requeued exactly when it is queued, and all candidates are tried, 120 seconds each, when a trial was recorded or the start is worth improving, and none otherwise |
| EarliestStart.Improve | src/osm_polygon_sentence_relevance/operator/cli.py:748-978 | a recorded trial is taken up again before anything else; otherwise the candidates are tried if an improvement is wanted, each for 120 seconds, polled every 30 |
| EarliestStart.Race | src/osm_polygon_sentence_relevance/operator/earliest_start.py:265-314 | every answer names the one allocation left, replaced exactly when it is not the original; the original is the answer only when it is no longer queued or no longer far off, and otherwise the next scan follows 300 seconds later |
| EarliestStart.RecoverAfterCrash | src/osm_polygon_sentence_relevance/operator/cli.py:705-772 | after a crash anywhere, the next execution re-attaches or completes the adoption and ends with one allocation; lost is exactly what the crash left unrecorded and what submissions that raised had reserved |
| EarliestStart.Operator.constructor | src/osm_polygon_sentence_relevance/operator/cli.py:671-678 | a new process knows the durable facts and nothing else |
| EarliestStart.Operator.Reserve | src/osm_polygon_sentence_relevance/operator/cli.py:872-907 | a submission gives a fresh allocation, or raises, before or after the scheduler accepted one |
| EarliestStart.Operator.PersistTrial | src/osm_polygon_sentence_relevance/operator/cli.py:909-929 | the record names fallback and trial |
| EarliestStart.Operator.AdoptTrial | src/osm_polygon_sentence_relevance/operator/cli.py:931-947 | the record makes the trial current and its fallback still to be cancelled |
| EarliestStart.Operator.ClearTrial | src/osm_polygon_sentence_relevance/operator/cli.py:949-958 | the record has no pending trial |
| EarliestStart.Operator.SettleFallback | src/osm_polygon_sentence_relevance/operator/cli.py:726-731 | the record says the fallback is cancelled |
| EarliestStart.Operator.Requeue | src/osm_polygon_sentence_relevance/operator/cli.py:735-745 | an adopted allocation that is queued becomes the fallback of a new round |
| CheckpointMirror.InvStep | src/osm_polygon_sentence_relevance/labeling/checkpoint_mirror.py:112-146 | every step of producer, worker, crash and restart keeps the outbox invariant |
| CheckpointMirror.OneTurnStep | src/osm_polygon_sentence_relevance/labeling/checkpoint_mirror.py:112-296 | from start on, every step keeps a batch that was not queued early in at most one place, and not uploaded while its turn is still ahead |
| CheckpointMirror.MarkerNeverLost | src/osm_polygon_sentence_relevance/labeling/checkpoint_mirror.py:132-146 | a marker once written is in pending or in uploaded in every reachable state |
| CheckpointMirror.MarkerNeverRewritten | src/osm_polygon_sentence_relevance/labeling/checkpoint_mirror.py:137-138 | no batch's marker is ever written twice, because uploaded is written before pending is removed and enqueue tests pending first |
| CheckpointMirror.UploadedAgainExactly | src/osm_polygon_sentence_relevance/labeling/checkpoint_mirror.py:112-130 | from start on, a process can upload a batch that has its uploaded marker if and only if that batch was already queued when start was called |
| CheckpointMirror.NeverUploadedAgain | src/osm_polygon_sentence_relevance/labeling/checkpoint_mirror.py:289-296 | a batch that was not queued before start is never uploaded again, so a process that starts before it enqueues anything repeats nothing |
| CheckpointMirror.UploadedTwice | src/osm_polygon_sentence_relevance/labeling/checkpoint_mirror.py:119-123 | any batch queued before start can be uploaded twice, from any reachable state: start queues it again, and its pending marker can survive the first upload |
| CheckpointMirror.EarlyEnqueueRepeats | src/osm_polygon_sentence_relevance/labeling/checkpoint_mirror.py:132-146 | such a state is reached by one enqueue into an empty outbox |
| CheckpointMirror.NoLostWakeup | src/osm_polygon_sentence_relevance/labeling/checkpoint_mirror.py:213-226 | while the worker runs, every batch still to upload is queued, in hand, about to be queued, or given up on until a restart |
| CheckpointMirror.RestartDelivers | src/osm_polygon_sentence_relevance/labeling/checkpoint_mirror.py:112-130 | from every reachable state a restart whose uploads succeed delivers every recorded batch and empties the outbox |
| CheckpointMirror.Outbox.constructor | src/osm_polygon_sentence_relevance/labeling/checkpoint_mirror.py:99-110 | a new process sees the two directories and an empty queue |
| CheckpointMirror.Outbox.EnqueueBatch | src/osm_polygon_sentence_relevance/labeling/checkpoint_mirror.py:132-146 | with the worker running between any two steps, a marker is written exactly when none was ever written and the checkpoint files are in order |
| CheckpointMirror.Outbox.StartWorker | src/osm_polygon_sentence_relevance/labeling/checkpoint_mirror.py:112-130 | pending markers already uploaded are dropped, all others queued, then the worker begins |
| CheckpointMirror.Outbox.ScanMarker | src/osm_polygon_sentence_relevance/labeling/checkpoint_mirror.py:119-124 | a found marker is queued or, when uploaded already, dropped |
| CheckpointMirror.Outbox.WorkerStep | src/osm_polygon_sentence_relevance/labeling/checkpoint_mirror.py:213-296 | the worker takes exactly its next step, loses no marker and un-uploads nothing |
| JoinIndex.CheckNonEmpty | src/osm_polygon_sentence_relevance/joins/_integrity.py:15-41 | passes exactly on columns without nulls and empty strings |
| JoinIndex.CheckUnique | src/osm_polygon_sentence_relevance/joins/_integrity.py:44-66 | passes exactly on columns whose non-null values differ |
| JoinIndex.CheckIndexed | src/osm_polygon_sentence_relevance/joins/_integrity.py:98-124 | passes exactly on columns without nulls and negative values |
| JoinIndex.CheckNoOrphans | src/osm_polygon_sentence_relevance/joins/_integrity.py:127-154 | passes exactly when every non-null child key is a parent key |
| JoinIndex.PositionsKeep | src/osm_polygon_sentence_relevance/joins/_wikipedia.py:313-315 | the grouped positions of a key pick the rows with that key, in order |
| WikipediaJoin.CheckKeys | src/osm_polygon_sentence_relevance/joins/_wikipedia.py:73-144 | passes exactly when every key, uniqueness, pair, index and orphan condition holds |
| WikipediaJoin.LookupSucceeds | src/osm_polygon_sentence_relevance/joins/_wikipedia.py:353-358 | behind the checks a dictionary lookup of a child key succeeds |
| WikipediaJoin.LinkLookups | src/osm_polygon_sentence_relevance/joins/_wikipedia.py:349-358 | a link leads to the one document and the one polygon with its keys |
| WikidataValues.StripTrims | src/osm_polygon_sentence_relevance/joins/_wikipedia.py:33 | stripping takes blanks off both ends and nothing else, until none is left there |
| WikidataValues.BlankCharacters | src/osm_polygon_sentence_relevance/joins/_wikipedia.py:33 | tabs, line ends and Unicode spaces are blanks, letters, digits and semicolons are not |
| WikidataValues.PartsAreQids | src/osm_polygon_sentence_relevance/joins/_wikipedia.py:33 | every value of a list is trimmed, not empty and without a semicolon |
| WikidataValues.ValuesOfList | src/osm_polygon_sentence_relevance/joins/_wikipedia.py:33 | a semicolon separates two lists of values |
| WikidataValues.ValuesOfOne | src/osm_polygon_sentence_relevance/joins/_wikipedia.py:33 | a text without a semicolon is its stripped self, or nothing when blank |
| WikidataValues.ListedQidMatches | src/osm_polygon_sentence_relevance/joins/_wikipedia.py:36-49 | a QID matches every semicolon list that has it among its parts, whatever blanks surround it |
| WikidataValues.MatchExactly | src/osm_polygon_sentence_relevance/joins/_wikipedia.py:36-49 | two values match exactly if both name a QID and not each of them one of its own |
| WikipediaJoin.CheckLinks | src/osm_polygon_sentence_relevance/joins/_wikipedia.py:182-244 | passes exactly when every link agrees with every polygon and document it is linked to |
| WikipediaJoin.CheckSections | src/osm_polygon_sentence_relevance/joins/_wikipedia.py:254-305 | passes exactly when every section agrees with its document |
| WikipediaJoin.JoinLink | src/osm_polygon_sentence_relevance/joins/_wikipedia.py:362-388 | the inner loop lists the document's sections in table order |
| WikipediaJoin.JoinAll | src/osm_polygon_sentence_relevance/joins/_wikipedia.py:349-388 | the indexed loops produce the nested comprehension over links, documents, polygons and sections |
| WikipediaJoin.JoinWikipedia | src/osm_polygon_sentence_relevance/joins/_wikipedia.py:52-390 | refused exactly when a check fails or no key column exists; otherwise the nested comprehension over the Wikipedia links, for both key columns |
| WikipediaJoin.JoinMeaning | src/osm_polygon_sentence_relevance/joins/_wikipedia.py:307-388 | a row is in the result exactly when a link connects its polygon and document and the section belongs to the document |
| WikipediaJoin.JoinGuarantees | src/osm_polygon_sentence_relevance/joins/_wikipedia.py:73-305 | every row of an accepted join has its keys, comes from a Wikipedia link, and link, document and section tell the same QID, language, page and revision |
| WikipediaJoin.NoDuplicateRows | src/osm_polygon_sentence_relevance/joins/_wikipedia.py:73-144 | the integrity checks leave no polygon with the same section twice |
| WikivoyageJoin.CheckVoyageKeys | src/osm_polygon_sentence_relevance/joins/_wikivoyage.py:35-71 | passes exactly when every key condition of this join holds |
| WikivoyageJoin.CheckVoyageSections | src/osm_polygon_sentence_relevance/joins/_wikivoyage.py:99-150 | passes exactly when every section agrees with its document, Wikidata compared literally |
| WikivoyageJoin.JoinDocument | src/osm_polygon_sentence_relevance/joins/_wikivoyage.py:191-226 | a document's rows: the polygons of its QID in order, each with its sections in order |
| WikivoyageJoin.JoinWikivoyage | src/osm_polygon_sentence_relevance/joins/_wikivoyage.py:26-228 | refused exactly when a check fails; otherwise the nested comprehension over documents, polygons of the same QID and sections |
| WikivoyageJoin.VoyageMeaning | src/osm_polygon_sentence_relevance/joins/_wikivoyage.py:191-226 | a row is in the result exactly when its polygon has a document's QID and its section belongs to that document, an empty article ID read as null |
| WikivoyageJoin.VoyageGuarantees | src/osm_polygon_sentence_relevance/joins/_wikivoyage.py:35-150 | every row of an accepted join has its keys, polygon, document and section tell the same QID, and the article ID is null instead of empty |
| WikivoyageJoin.VoyageNoDuplicateRows | src/osm_polygon_sentence_relevance/joins/_wikivoyage.py:35-71 | the integrity checks leave no polygon with the same section twice |

## Left out

- V2Resumable.SelectShards: schema comparison between shards, symlink and file-mode checks, and the Parquet and SQLite encodings are not modelled; a refused call stands for any exception before or during planning.
- V2Resumable.LoadCached: the cache's schema fingerprint and version are not modelled; all shards have one schema.
- EarliestStart.Race: the number of rescans is bounded by a parameter, because the original loops until the scheduler answers; every statement holds for every bound.
- EarliestStart.Attempt: callbacks other than prepare and submit do not raise; an exception there is a crash, which the recovery statements cover.
- EarliestStart.Optimize: whether a forecast is far off is part of the scheduler's answer; the probing and ranking of sites and the staging of assets are the caller's choice of `candidates`.
- WikipediaJoin.JoinWikipedia: columns that are only copied are one opaque value per row.
- LabelRunner.Run: prompts, log-probabilities, timing and progress files are left out; a record is its sentence ID and an opaque score.
- CheckpointMirror.Outbox.WorkerStep: validation of a marker's fields is one arbitrary answer, and `close` is left out: after it the worker takes no more steps.
- The order in which row checks fail, and error messages, are not distinguished.
- `canonical_area_bucket`, `_cell` and the H3 library are given functions of a row; floats, SHA-256 and JSON are not modelled.
- Policy windows, quota parsing, plots, dataset cards, manifests and tracking are left out: single-branch facts.
- The V1 runner and checkpoint store repeat the V2 ones; the application pipeline, the streaming driver and the finalizers are not part of this model.
