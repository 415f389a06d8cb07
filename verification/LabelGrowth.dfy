/** Labeling runs over growing selections of one table. */
module LabelGrowth {
  import opened Wrappers
  import opened SentenceTable
  import opened Selection
  import opened LabelStore
  import opened LabelRunner
  import Queues
  import Ranking
  import V2Sampling

  /** One start of the labeling command: `stops(k)` tells whether a stop is requested before
      its batch `k`, and an unsteady one may be killed, or fed anything by the engine. */
  datatype Attempt = Attempt(target: nat, stops: nat -> bool, steady: bool)

  function IdsOf(rows: seq<Row>): (ids: seq<string>)
    ensures |ids| == |rows| && forall i :: 0 <= i < |ids| ==> ids[i] == rows[i].sentenceId
  {
    seq(|rows|, i requires 0 <= i < |rows| => rows[i].sentenceId)
  }

  ghost function SelectedIds(rows: seq<Row>, target: nat, ranks: Ranks): seq<string>
    requires CollisionFree(ranks) && AllAccepted(rows)
  {
    IdsOf(SelectedRows(rows, target, ranks))
  }

  lemma SelectedIdsDistinct(rows: seq<Row>, target: nat, ranks: Ranks)
    requires CollisionFree(ranks) && Acceptable(rows)
    ensures LabelRunner.NoRepeats(SelectedIds(rows, target, ranks))
  {
    hide Select;
    SelectNested(rows, target, target, ranks);
    SelectInRange(rows, target, ranks);
    var at := Select(rows, target, ranks);
    forall i, j | 0 <= i < j < |at| ensures rows[at[i]].sentenceId != rows[at[j]].sentenceId {
      assert at[i] != at[j];
    }
  }

  lemma SelectedIdsNested(rows: seq<Row>, small: nat, large: nat, ranks: Ranks)
    requires CollisionFree(ranks) && AllAccepted(rows) && small <= large
    ensures SelectedIds(rows, small, ranks) <= SelectedIds(rows, large, ranks)
  {
    hide SelectedRows;
    SelectedRowsNested(rows, small, large, ranks);
  }

  // ----- The checkpoints are always the first selected rows -----

  /** The directory holds labels of exactly the first `m` rows. */
  ghost predicate FirstLabeled(d: Directory, ids: seq<string>, m: nat) {
    m <= |ids| && Ids(History(d)) == SetOf(ids[..m])
  }

  ghost predicate LabelsPrefix(d: Directory, ids: seq<string>) {
    exists m: nat :: FirstLabeled(d, ids, m)
  }

  lemma PrefixGrows(
    before: Directory, after: Directory, identity: string, sha: seq<Record> -> string, ids: seq<string>,
    offset: nat, m: nat)
    requires LabelRunner.NoRepeats(ids) && FirstLabeled(before, ids, m)
    requires Advanced(before, after, identity, sha, Pending(ids, Ids(History(before))), offset)
    ensures m + offset <= |ids| && FirstLabeled(after, ids, m + offset)
  {
    hide Intact, History, Ids, Pending, SetOf, LabelRunner.NoRepeats;
    PendingAfterPrefix(ids, m);
    TakeMore(ids, m, offset);
    SetOfConcat(ids[..m], ids[m..][..offset]);
  }

  lemma TakeMore(ids: seq<string>, m: nat, offset: nat)
    requires m + offset <= |ids|
    ensures ids[..m] + ids[m..][..offset] == ids[..m + offset]
  {
  }

  lemma PrefixOfLarger(d: Directory, small: seq<string>, large: seq<string>)
    requires small <= large && LabelsPrefix(d, small)
    ensures LabelsPrefix(d, large) && Ids(History(d)) <= SetOf(large)
  {
    hide Ids, History;
    var m: nat :| FirstLabeled(d, small, m);
    assert small[..m] == large[..m];
    assert FirstLabeled(d, large, m);
    assert large == large[..m] + large[m..];
    SetOfConcat(large[..m], large[m..]);
  }

  // ----- One attempt -----

  /** The earlier batch files are still there, as they were. */
  ghost predicate Kept(d: Directory, d': Directory) {
    forall i :: i in d.parquet ==> i in d'.parquet && d'.parquet[i] == d.parquet[i]
  }

  /** What one attempt does, whatever happens to it. */
  ghost predicate AttemptOk(
    d: Directory, d': Directory, identity: string, sha: seq<Record> -> string, ids: seq<string>, batchSize: nat,
    stops: nat -> bool, steady: bool, r: RunOutcome)
  {
    // It is refused exactly when the directory is torn or past the last file name ...
    && (r == Aborted(Unreadable) <==> !Loads(d, identity, sha))
    && (r == Aborted(Unreadable) ==> d' == d)
    // ... and never for sentences missing from a grown selection.
    && (r.Aborted? ==> r.reason in {Unreadable, BadResponse, Raised})
    // It works batch by batch and ends at the first boundary with a stop request ...
    && (Loads(d, identity, sha) ==> Ran(d, d', identity, sha, ids, batchSize, stops, r))
    && Kept(d, d')
    // ... and leaves a torn directory, which nothing loads, or a whole one: sealed batches
    // numbered from zero, no sentence twice, that extend the earlier ones.
    && (Torn(d') || Intact(d', identity, sha))
    && (Intact(d', identity, sha) ==> History(d) <= History(d') && LabelsPrefix(d', ids))
    && (r.Done? ==> Intact(d', identity, sha) && r.total == |ids|)
    && (r.Done? && !r.interrupted ==> Ids(History(d')) == SetOf(ids) && r.completed == |ids|)
    && (steady && Loads(d, identity, sha) ==> r.Done?)
  }

  lemma RanIsOk(
    d: Directory, d': Directory, identity: string, sha: seq<Record> -> string, ids: seq<string>, batchSize: nat,
    stops: nat -> bool, steady: bool, r: RunOutcome)
    requires LabelRunner.NoRepeats(ids) && LabelsPrefix(d, ids) && Loads(d, identity, sha)
    requires Torn(d') || Intact(d', identity, sha)
    requires Ran(d, d', identity, sha, ids, batchSize, stops, r) && (steady ==> r.Done?)
    ensures AttemptOk(d, d', identity, sha, ids, batchSize, stops, steady, r)
  {
    hide Loads, Intact, History, Ids, Torn, Pending, AtBoundary, Batched, Advanced, Broken, LabelsPrefix, SetOf;
    var now, k :| EndedAt(d, now, d', identity, sha, ids, batchSize, stops, k, r);
    EndedKeeps(d, now, d', identity, sha, ids, batchSize, stops, k, r);
    if Intact(d', identity, sha) {
      IntactIsNotTorn(d', identity, sha);
      BrokenIsTorn(now, d');
      BoundaryGrows(d, d', identity, sha, ids, batchSize, stops, k);
    }
    SetOfSize(ids);
  }

  lemma BrokenIsTorn(now: Directory, after: Directory)
    ensures Broken(now, after) ==> Torn(after)
  {
  }

  lemma EndedKeeps(
    d: Directory, now: Directory, d': Directory, identity: string, sha: seq<Record> -> string, ids: seq<string>,
    batchSize: nat, stops: nat -> bool, k: nat, r: RunOutcome)
    requires EndedAt(d, now, d', identity, sha, ids, batchSize, stops, k, r)
    ensures Kept(d, d')
  {
    hide Advanced, Pending, Returned, Intact, History, Ids;
  }

  lemma BoundaryGrows(
    d: Directory, d': Directory, identity: string, sha: seq<Record> -> string, ids: seq<string>, batchSize: nat,
    stops: nat -> bool, k: nat)
    requires AtBoundary(d, d', identity, sha, ids, batchSize, stops, k)
    requires LabelRunner.NoRepeats(ids) && LabelsPrefix(d, ids)
    ensures History(d) <= History(d') && LabelsPrefix(d', ids)
  {
    hide Intact, History, Ids, Pending, Batched, Edge;
    var pending := Pending(ids, Ids(History(d)));
    var m: nat :| FirstLabeled(d, ids, m);
    PrefixGrows(d, d', identity, sha, ids, Edge(pending, batchSize, k), m);
  }

  method RunAttempt(
    store: CheckpointStore, ids: seq<string>, batchSize: nat, stops: nat -> bool, steady: bool, ghost earlier: seq<string>)
    returns (r: RunOutcome)
    requires store.Valid() && batchSize >= 1 && batchSize == store.batchSize && LabelRunner.NoRepeats(ids)
    requires earlier <= ids && (Torn(store.files) || LabelsPrefix(store.files, earlier))
    modifies store`files
    ensures store.Valid() && (Torn(store.files) || LabelsPrefix(store.files, ids))
    ensures AttemptOk(old(store.files), store.files, store.identity, store.sha, ids, batchSize, stops, steady, r)
  {
    hide Loads, Intact, History, Ids, Torn, LabelsPrefix, SetOf, Ran, LabelRunner.NoRepeats;
    ghost var before := store.files;
    StartingPoint(store, earlier, ids);
    r := Run(store, ids, batchSize, stops, steady);
    if Loads(before, store.identity, store.sha) {
      RanIsOk(before, store.files, store.identity, store.sha, ids, batchSize, stops, steady, r);
    }
  }

  /** Before an attempt: a readable directory labels a prefix of the new selection too. */
  lemma StartingPoint(store: CheckpointStore, earlier: seq<string>, ids: seq<string>)
    requires store.Valid() && earlier <= ids && (Torn(store.files) || LabelsPrefix(store.files, earlier))
    ensures Torn(store.files) || LabelsPrefix(store.files, ids)
    ensures Torn(store.files) ==> !Loads(store.files, store.identity, store.sha)
    ensures Intact(store.files, store.identity, store.sha) ==> !Torn(store.files)
    ensures Loads(store.files, store.identity, store.sha) ==>
      Ids(Loaded(store.files)) <= SetOf(ids) && Loaded(store.files) == History(store.files)
  {
    hide Loaded, History, Ids, SetOf, LabelsPrefix;
    if !Torn(store.files) {
      IntactLoads(store.files, store.identity, store.sha);
      PrefixOfLarger(store.files, earlier, ids);
    }
  }

  // ----- Any sequence of attempts -----

  ghost predicate Growing(attempts: seq<Attempt>) {
    && (forall i :: 0 <= i < |attempts| ==> attempts[i].target >= 1)
    && (forall i, j :: 0 <= i < j < |attempts| ==> attempts[i].target <= attempts[j].target)
  }

  /** The identifiers the labeling command asks for: the reference selection's. */
  method SelectIds(rows: seq<Row>, target: nat, ranks: Ranks) returns (ids: seq<string>)
    requires CollisionFree(ranks) && Acceptable(rows) && target >= 1
    ensures ids == SelectedIds(rows, target, ranks)
  {
    hide SelectedRows, CollisionFree, Acceptable;
    var table := V2Sampling.SelectRows(rows, target, ranks);
    ids := IdsOf(table.value);
  }

  /** What one attempt asked for and did. */
  datatype Leg = Leg(before: Directory, after: Directory, ids: seq<string>, attempt: Attempt, outcome: RunOutcome)

  ghost predicate LegOk(leg: Leg, identity: string, sha: seq<Record> -> string, batchSize: nat) {
    AttemptOk(
      leg.before, leg.after, identity, sha, leg.ids, batchSize, leg.attempt.stops, leg.attempt.steady, leg.outcome)
  }

  /** Identifier lists that only ever grow at their end. */
  ghost predicate Nested(lists: seq<seq<string>>) {
    && (forall i :: 0 <= i < |lists| ==> LabelRunner.NoRepeats(lists[i]))
    && (forall i :: 0 < i < |lists| ==> lists[i - 1] <= lists[i])
  }

  ghost predicate Chained(legs: seq<Leg>) {
    && (legs != [] ==> legs[0].before == Directory(map[], map[], false))
    && (forall i :: 0 < i < |legs| ==> legs[i - 1].after == legs[i].before)
  }

  /** Every attempt of a growing sequence behaves, whatever stops, kills and engine answers
      happen; an unstopped one labels exactly the selection at its own target. */
  method RunAttempts(
    rows: seq<Row>, ranks: Ranks, attempts: seq<Attempt>, identity: string, batchSize: nat, sha: seq<Record> -> string)
    returns (legs: seq<Leg>)
    requires CollisionFree(ranks) && Acceptable(rows) && batchSize >= 1 && Growing(attempts)
    ensures |legs| == |attempts| && Chained(legs)
    ensures forall i :: 0 <= i < |legs| ==>
      && LegOk(legs[i], identity, sha, batchSize) && legs[i].attempt == attempts[i]
      && AllAccepted(rows) && legs[i].ids == SelectedIds(rows, attempts[i].target, ranks)
  {
    hide SelectedIds, CollisionFree, Acceptable, AllAccepted, LegOk, Nested, Chained;
    AcceptableRows(rows);
    var lists: seq<seq<string>> := [];
    for i := 0 to |attempts|
      invariant |lists| == i
      invariant forall k :: 0 <= k < i ==> lists[k] == SelectedIds(rows, attempts[k].target, ranks)
    {
      var ids := SelectIds(rows, attempts[i].target, ranks);
      lists := lists + [ids];
    }
    SelectionsNested(rows, ranks, attempts, lists);
    legs := RunLists(lists, attempts, identity, batchSize, sha);
  }

  lemma SelectionsNested(rows: seq<Row>, ranks: Ranks, attempts: seq<Attempt>, lists: seq<seq<string>>)
    requires CollisionFree(ranks) && Acceptable(rows) && Growing(attempts) && |lists| == |attempts|
    requires forall k :: 0 <= k < |lists| ==> lists[k] == SelectedIds(rows, attempts[k].target, ranks)
    ensures Nested(lists)
  {
    hide SelectedIds;
    forall i | 0 <= i < |lists| ensures LabelRunner.NoRepeats(lists[i]) {
      SelectedIdsDistinct(rows, attempts[i].target, ranks);
    }
    forall i | 0 < i < |lists| ensures lists[i - 1] <= lists[i] {
      SelectedIdsNested(rows, attempts[i - 1].target, attempts[i].target, ranks);
    }
  }

  /** The attempts of `RunAttempts`, one after another on one directory. */
  method RunLists(
    lists: seq<seq<string>>, attempts: seq<Attempt>, identity: string, batchSize: nat, sha: seq<Record> -> string)
    returns (legs: seq<Leg>)
    requires Nested(lists) && |attempts| == |lists| && batchSize >= 1
    ensures |legs| == |lists| && Chained(legs)
    ensures forall i :: 0 <= i < |legs| ==>
      LegOk(legs[i], identity, sha, batchSize) && legs[i].ids == lists[i] && legs[i].attempt == attempts[i]
  {
    hide AttemptOk, LabelsPrefix, Torn, Intact, LabelRunner.NoRepeats;
    var store := new CheckpointStore(identity, batchSize, sha);
    EmptyPrefix(store.files, []);
    legs := [];
    for i := 0 to |lists|
      invariant fresh(store) && store.Valid() && store.batchSize == batchSize
      invariant store.identity == identity && store.sha == sha
      invariant |legs| == i && Chained(legs)
      invariant forall k :: 0 <= k < i ==>
        LegOk(legs[k], identity, sha, batchSize) && legs[k].ids == lists[k] && legs[k].attempt == attempts[k]
      invariant store.files == if i == 0 then Directory(map[], map[], false) else legs[i - 1].after
      invariant Torn(store.files) || LabelsPrefix(store.files, if i == 0 then [] else lists[i - 1])
    {
      var before := store.files;
      var a := attempts[i];
      var r := RunAttempt(store, lists[i], batchSize, a.stops, a.steady, if i == 0 then [] else lists[i - 1]);
      legs := legs + [Leg(before, store.files, lists[i], a, r)];
    }
  }

  lemma AcceptableRows(rows: seq<Row>)
    requires Acceptable(rows)
    ensures AllAccepted(rows)
  {
  }

  lemma EmptyPrefix(d: Directory, ids: seq<string>)
    requires d == Directory(map[], map[], false)
    ensures LabelsPrefix(d, ids)
  {
    assert FirstLabeled(d, ids, 0);
  }
}
