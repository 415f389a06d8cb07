/** `V2LogitRunner.run`: label the rows that have no checkpoint yet, one batch at a time. */
module LabelRunner {
  import opened Wrappers
  import opened LabelStore

  /** How a run ends: it returns, an exception leaves it, or the process is killed. */
  datatype RunOutcome = Done(completed: nat, total: nat, interrupted: bool) | Aborted(reason: Reason) | Died

  function SetOf(ids: seq<string>): set<string> {
    set i | 0 <= i < |ids| :: ids[i]
  }

  ghost predicate NoRepeats(ids: seq<string>) {
    forall i, j :: 0 <= i < j < |ids| ==> ids[i] != ids[j]
  }

  /** The rows still to label, in table order. */
  function Pending(ids: seq<string>, completed: set<string>): seq<string> {
    if ids == [] then [] else
      var before := Pending(ids[..|ids| - 1], completed);
      if ids[|ids| - 1] in completed then before else before + [ids[|ids| - 1]]
  }

  lemma {:induction false} PendingIsRest(ids: seq<string>, completed: set<string>)
    requires NoRepeats(ids)
    ensures NoRepeats(Pending(ids, completed))
    ensures SetOf(Pending(ids, completed)) == SetOf(ids) - completed
  {
    if ids != [] {
      var n := |ids| - 1;
      PendingIsRest(ids[..n], completed);
      AddId(ids[..n], ids[n]);
      AddId(Pending(ids[..n], completed), ids[n]);
      assert ids == ids[..n] + [ids[n]];
      assert forall i :: 0 <= i < n ==> ids[i] in SetOf(ids[..n]);
      assert forall i :: 0 <= i < |Pending(ids[..n], completed)| ==>
        Pending(ids[..n], completed)[i] in SetOf(Pending(ids[..n], completed));
      assert ids[n] !in SetOf(ids[..n]);
    }
  }

  /** Pending rows stand in table order. */
  lemma {:induction false} PendingInOrder(ids: seq<string>, completed: set<string>, i: nat, j: nat) returns (p: nat, q: nat)
    requires i < j < |Pending(ids, completed)|
    ensures p < q < |ids| && ids[p] == Pending(ids, completed)[i] && ids[q] == Pending(ids, completed)[j]
  {
    var n := |ids| - 1;
    var before := Pending(ids[..n], completed);
    if j < |before| {
      p, q := PendingInOrder(ids[..n], completed, i, j);
    } else {
      p := PendingAt(ids[..n], completed, i);
      q := n;
    }
  }

  lemma {:induction false} PendingAt(ids: seq<string>, completed: set<string>, i: nat) returns (p: nat)
    requires i < |Pending(ids, completed)|
    ensures p < |ids| && ids[p] == Pending(ids, completed)[i]
  {
    var n := |ids| - 1;
    if i < |Pending(ids[..n], completed)| {
      p := PendingAt(ids[..n], completed, i);
    } else {
      p := n;
    }
  }

  lemma {:induction false} SetOfSize(ids: seq<string>)
    requires NoRepeats(ids)
    ensures |SetOf(ids)| == |ids|
  {
    if ids != [] {
      var n := |ids| - 1;
      SetOfSize(ids[..n]);
      assert ids == ids[..n] + [ids[n]];
      AddId(ids[..n], ids[n]);
      assert ids[n] !in SetOf(ids[..n]);
    }
  }

  lemma SetOfConcat(a: seq<string>, b: seq<string>)
    ensures SetOf(a + b) == SetOf(a) + SetOf(b)
  {
    var c := a + b;
    forall x ensures x in SetOf(c) <==> x in SetOf(a) || x in SetOf(b) {
      if x in SetOf(a) {
        var i :| 0 <= i < |a| && a[i] == x;
        assert c[i] == x;
      }
      if x in SetOf(b) {
        var i :| 0 <= i < |b| && b[i] == x;
        assert c[|a| + i] == x;
      }
    }
  }

  lemma AddId(ids: seq<string>, id: string)
    ensures SetOf(ids + [id]) == SetOf(ids) + {id}
  {
    SetOfConcat(ids, [id]);
    assert [id][0] in SetOf([id]);
  }

  /** When the labeled rows are the first `m`, the pending ones are the others, in order. */
  lemma {:induction false} PendingAfterPrefix(ids: seq<string>, m: nat)
    requires NoRepeats(ids) && m <= |ids|
    ensures Pending(ids, SetOf(ids[..m])) == ids[m..]
  {
    if m == |ids| {
      assert ids[..m] == ids && ids[m..] == [];
      PendingIsRest(ids, SetOf(ids));
      SetOfSize(Pending(ids, SetOf(ids)));
    } else {
      var n := |ids| - 1;
      PendingAfterPrefix(ids[..n], m);
      assert ids[..n][..m] == ids[..m];
      assert ids[m..] == ids[..n][m..] + [ids[n]];
      assert ids[n] !in SetOf(ids[..m]);
    }
  }

  // ----- The world around the loop -----

  /** The engine answers anything, or raises. */
  method Generate(batch: seq<string>, steady: bool) returns (r: Option<seq<Record>>)
    ensures steady ==> r.Some? && |r.value| == |batch| && forall i :: 0 <= i < |batch| ==> r.value[i].sentenceId == batch[i]
  {
    if steady {
      r := Some(seq(|batch|, i requires 0 <= i < |batch| => Record(batch[i], "")));
    } else {
      r := *;
    }
  }

  /** Something happens, or it does not. */
  method Perhaps(steady: bool) returns (b: bool)
    ensures steady ==> !b
  {
    b := *;
    if steady { b := false; }
  }

  // ----- One batch -----

  ghost predicate Answers(records: seq<Record>, batch: seq<string>) {
    |records| == |batch| && UniqueIds(records) && Ids(records) == SetOf(batch)
  }

  lemma RightAnswer(records: seq<Record>, batch: seq<string>)
    requires NoRepeats(batch) && |records| == |batch|
    requires forall i :: 0 <= i < |batch| ==> records[i].sentenceId == batch[i]
    ensures Answers(records, batch)
  {
    forall x ensures x in Ids(records) <==> x in SetOf(batch) {
      if x in Ids(records) {
        var i :| 0 <= i < |records| && records[i].sentenceId == x;
        assert batch[i] == x;
      }
      if x in SetOf(batch) {
        var i :| 0 <= i < |batch| && batch[i] == x;
        assert records[i].sentenceId == x;
      }
    }
  }

  /** The checks of the engine's answer. */
  method CheckAnswer(records: seq<Record>, batch: seq<string>) returns (ok: bool)
    ensures ok <==> Answers(records, batch)
  {
    if |records| != |batch| { return false; }
    var distinct := AllDistinct(records);
    ok := distinct && Ids(records) == SetOf(batch);
  }

  lemma JoinUnique(a: seq<Record>, b: seq<Record>)
    requires UniqueIds(a) && UniqueIds(b) && Ids(a) !! Ids(b)
    ensures UniqueIds(a + b) && Ids(a + b) == Ids(a) + Ids(b)
  {
    forall i, j | 0 <= i < j < |a + b| ensures (a + b)[i].sentenceId != (a + b)[j].sentenceId {
      if i < |a| <= j {
        assert a[i].sentenceId in Ids(a) && b[j - |a|].sentenceId in Ids(b);
      }
    }
    forall x ensures x in Ids(a + b) <==> x in Ids(a) + Ids(b) {
      if x in Ids(a) {
        var i :| 0 <= i < |a| && a[i].sentenceId == x;
        assert (a + b)[i].sentenceId == x;
      }
      if x in Ids(b) {
        var i :| 0 <= i < |b| && b[i].sentenceId == x;
        assert (a + b)[|a| + i].sentenceId == x;
      }
    }
  }

  lemma NextChunk(pending: seq<string>, offset: nat, length: nat)
    requires NoRepeats(pending) && offset + length <= |pending|
    ensures NoRepeats(pending[offset..offset + length])
    ensures SetOf(pending[..offset + length]) == SetOf(pending[..offset]) + SetOf(pending[offset..offset + length])
    ensures SetOf(pending[..offset]) !! SetOf(pending[offset..offset + length])
    ensures SetOf(pending[..offset + length]) <= SetOf(pending)
  {
    var a, b, c := pending[..offset], pending[offset..offset + length], pending[..offset + length];
    assert c == a + b && pending == c + pending[offset + length..];
    SetOfConcat(a, b);
    SetOfConcat(c, pending[offset + length..]);
    assert forall i :: 0 <= i < length ==> b[i] == pending[offset + i];
    forall x | x in SetOf(a) ensures x !in SetOf(b) {
      var i :| 0 <= i < |a| && a[i] == x;
      assert pending[i] == x;
      assert forall j :: offset <= j < offset + length ==> pending[i] != pending[j];
    }
  }

  // ----- The loop -----

  /** What the store holds after `offset` pending rows: all earlier records, untouched and
      first, then records of exactly those rows. */
  ghost predicate Advanced(
    before: Directory, after: Directory, identity: string, sha: seq<Record> -> string, pending: seq<string>, offset: nat)
  {
    && offset <= |pending| && Intact(after, identity, sha)
    && History(before) <= History(after)
    && Ids(History(after)) == Ids(History(before)) + SetOf(pending[..offset])
  }

  lemma NotYet(d: Directory, identity: string, sha: seq<Record> -> string, pending: seq<string>)
    requires Intact(d, identity, sha)
    ensures Advanced(d, d, identity, sha, pending, 0)
  {
  }

  /** A batch of new sentences is not refused, and lands behind the others. */
  lemma StoreTakes(d: Directory, identity: string, sha: seq<Record> -> string, records: seq<Record>)
    requires Intact(d, identity, sha)
    requires records != [] && UniqueIds(records) && Ids(records) !! Ids(History(d))
    ensures Refusal(d, |d.parquet|, records).None?
    ensures var d' := WithBatch(d, |d.parquet|, records, identity, sha);
      && Intact(d', identity, sha) && |d'.parquet| == |d.parquet| + 1
      && History(d') == History(d) + records
      && Ids(History(d')) == Ids(History(d)) + Ids(records)
  {
    HistoryUnique(d, identity, sha);
    JoinUnique(History(d), records);
    hide UniqueIds, Intact, History;
    Appended(d, identity, sha, records);
  }

  lemma HistoryUnique(d: Directory, identity: string, sha: seq<Record> -> string)
    requires Intact(d, identity, sha)
    ensures UniqueIds(History(d))
  {
  }

  lemma OneBatch(
    before: Directory, now: Directory, identity: string, sha: seq<Record> -> string, pending: seq<string>,
    offset: nat, length: nat, records: seq<Record>)
    requires Advanced(before, now, identity, sha, pending, offset) && 1 <= length && offset + length <= |pending|
    requires NoRepeats(pending) && SetOf(pending) !! Ids(History(before))
    requires Answers(records, pending[offset..offset + length])
    ensures Refusal(now, |now.parquet|, records).None?
    ensures var d' := WithBatch(now, |now.parquet|, records, identity, sha);
      && Advanced(before, d', identity, sha, pending, offset + length)
      && |d'.parquet| == |now.parquet| + 1 && Ids(History(d')) == Ids(History(now)) + Ids(records)
  {
    hide NoRepeats, SetOf, UniqueIds, WithBatch, Refusal, Intact, History, Ids;
    NextChunk(pending, offset, length);
    ChunkDisjoint(pending, offset, length, Ids(History(before)));
    StoreTakes(now, identity, sha, records);
  }

  lemma ChunkDisjoint(pending: seq<string>, offset: nat, length: nat, completed: set<string>)
    requires NoRepeats(pending) && offset + length <= |pending| && SetOf(pending) !! completed
    ensures SetOf(pending[offset..offset + length]) !! completed + SetOf(pending[..offset])
  {
    NextChunk(pending, offset, length);
  }

  // ----- run -----

  /** The run of one batch: generate, check, store, report. */
  method RunBatch(store: CheckpointStore, batch: seq<string>, index: nat, steady: bool)
    returns (r: Option<RunOutcome>, records: seq<Record>)
    requires Intact(store.files, store.identity, store.sha) && index == |store.files.parquet|
    requires NoRepeats(batch) && batch != [] && SetOf(batch) !! Ids(History(store.files))
    modifies store`files
    ensures steady ==> r.None?
    ensures r.Some? ==> !r.value.Done? && (r.value.Aborted? ==> r.value.reason in {BadResponse, Raised})
    ensures
      || (Answers(records, batch)
          && store.files == WithBatch(old(store.files), index, records, store.identity, store.sha))
      || (r.Some? && (store.files == old(store.files) || Broken(old(store.files), store.files)))
  {
    hide Intact, History, Answers, Ids, SetOf, NoRepeats, WithBatch, Refusal, HalfWritten, Broken;
    records := [];
    ghost var before := store.files;
    NextFree(before, store.identity, store.sha);
    var generated := Generate(batch, steady);
    if generated.None? { return Some(Aborted(Raised)), []; }
    if steady { RightAnswer(generated.value, batch); }
    var ok := CheckAnswer(generated.value, batch);
    if !ok { return Some(Aborted(BadResponse)), []; }
    records := generated.value;
    AnswerIsNew(records, batch);
    StoreTakes(store.files, store.identity, store.sha, records);
    var written := store.WriteBatch(index, records, steady);
    if HalfWritten(before, store.files, index, records, store.identity, store.sha) {
      HalfWrittenIsTorn(before, store.files, records, store.identity, store.sha);
    }
    if written.Killed? { return Some(Died), records; }
    if written.Failed? { return Some(Aborted(Raised)), records; }
    var dies := Perhaps(steady);
    if dies { return Some(Died), records; }
    var raises := Perhaps(steady);
    r := if raises then Some(Aborted(Raised)) else None;
  }

  lemma NextFree(d: Directory, identity: string, sha: seq<Record> -> string)
    requires Intact(d, identity, sha)
    ensures |d.parquet| !in d.parquet && |d.parquet| !in d.json
  {
    BelowMembers(|d.parquet|);
  }

  lemma AnswerIsNew(records: seq<Record>, batch: seq<string>)
    requires Answers(records, batch) && batch != []
    ensures records != [] && UniqueIds(records) && Ids(records) == SetOf(batch)
  {
  }

  /** Why a run labels nothing at all. */
  ghost function Refused(store: CheckpointStore, d: Directory, ids: seq<string>, batchSize: int): Option<Reason> {
    if batchSize < 1 || batchSize != store.batchSize then Some(BadBatchSize)
    else if !NoRepeats(ids) then Some(DuplicateInput)
    else if !Loads(d, store.identity, store.sha) then Some(Unreadable)
    else if !(Ids(Loaded(d)) <= SetOf(ids)) then Some(AbsentIds)
    else None
  }

  /** Batch `j` of the pending rows. */
  ghost function Chunk(pending: seq<string>, batchSize: nat, j: nat): seq<string>
    requires j * batchSize <= |pending|
  {
    var from := j * batchSize;
    if from + batchSize <= |pending| then pending[from..from + batchSize] else pending[from..]
  }

  /** How many rows the first `k` batches hold. */
  ghost function Edge(pending: seq<string>, batchSize: nat, k: nat): nat {
    if k * batchSize <= |pending| then k * batchSize else |pending|
  }

  /** Behind the earlier batch files, which are as they were, stand `k` new ones, each with
      records of exactly the next `batchSize` pending rows, or of the last ones. */
  ghost predicate Batched(before: Directory, after: Directory, pending: seq<string>, batchSize: nat, k: nat) {
    && |after.parquet| == |before.parquet| + k
    && (forall i :: i in before.parquet ==> i in after.parquet && after.parquet[i] == before.parquet[i])
    && forall j :: 0 <= j < k ==> NewBatch(before, after, pending, batchSize, j)
  }

  ghost predicate NewBatch(before: Directory, after: Directory, pending: seq<string>, batchSize: nat, j: nat) {
    var index := |before.parquet| + j;
    && j * batchSize < |pending| && index in after.parquet
    && Answers(after.parquet[index], Chunk(pending, batchSize, j))
  }

  /** Every new batch but the last is full. */
  lemma FullBatches(before: Directory, after: Directory, pending: seq<string>, batchSize: nat, k: nat, j: nat)
    requires Batched(before, after, pending, batchSize, k) && batchSize >= 1 && j < k
    ensures var index := |before.parquet| + j;
      && index in after.parquet && 1 <= |after.parquet[index]| <= batchSize
      && (j + 1 < k ==> |after.parquet[index]| == batchSize)
  {
    assert NewBatch(before, after, pending, batchSize, j);
    BatchSize(before, after, pending, batchSize, j);
    if j + 1 < k {
      assert NewBatch(before, after, pending, batchSize, j + 1);
      hide Batched, Answers, Chunk;
      NextEdge(j, batchSize);
    }
  }

  lemma BatchSize(before: Directory, after: Directory, pending: seq<string>, batchSize: nat, j: nat)
    requires NewBatch(before, after, pending, batchSize, j) && batchSize >= 1
    ensures var records := after.parquet[|before.parquet| + j];
      |records| == if j * batchSize + batchSize <= |pending| then batchSize else |pending| - j * batchSize
  {
  }

  lemma NextEdge(k: nat, batchSize: nat)
    ensures (k + 1) * batchSize == k * batchSize + batchSize
  {
  }

  /** After `k` batches, none of which a stop request forbade: the records of exactly their
      rows are behind the earlier ones, one file for each batch. */
  ghost predicate AtBoundary(
    before: Directory, after: Directory, identity: string, sha: seq<Record> -> string, ids: seq<string>,
    batchSize: nat, stops: nat -> bool, k: nat)
  {
    var pending := Pending(ids, Ids(History(before)));
    && Advanced(before, after, identity, sha, pending, Edge(pending, batchSize, k))
    && Batched(before, after, pending, batchSize, k)
    && forall j :: 0 <= j < k ==> !stops(j)
  }

  /** When a run returns: before the first batch that a stop request forbids, or after all. */
  ghost predicate Returned(before: Directory, ids: seq<string>, batchSize: nat, stops: nat -> bool, k: nat, r: RunOutcome) {
    var left := k * batchSize < |Pending(ids, Ids(History(before)))|;
    r.Done? ==> (r.interrupted <==> left) && (r.interrupted ==> stops(k))
  }

  /** How a run that starts labeling ends: at the boundary of a batch, or with the next batch
      written half way, which closes the directory. */
  ghost predicate EndedAt(
    before: Directory, now: Directory, after: Directory, identity: string, sha: seq<Record> -> string, ids: seq<string>,
    batchSize: nat, stops: nat -> bool, k: nat, r: RunOutcome)
  {
    && AtBoundary(before, now, identity, sha, ids, batchSize, stops, k)
    && (if after == now then Returned(before, ids, batchSize, stops, k, r) else Broken(now, after) && !r.Done?)
  }

  ghost predicate Ran(
    before: Directory, after: Directory, identity: string, sha: seq<Record> -> string, ids: seq<string>,
    batchSize: nat, stops: nat -> bool, r: RunOutcome)
  {
    && (exists now, k :: EndedAt(before, now, after, identity, sha, ids, batchSize, stops, k, r))
    && (r.Done? ==>
      && Intact(after, identity, sha) && r.total == |ids| && r.completed == |Ids(History(after))|
      && (!r.interrupted ==> Ids(History(after)) == SetOf(ids)))
    && (r.Aborted? ==> r.reason in {BadResponse, Raised})
  }

  /** `run`; `stops(k)` is what `stop_requested` answers before this run's batch `k`. */
  method Run(store: CheckpointStore, ids: seq<string>, batchSize: int, stops: nat -> bool, steady: bool)
    returns (r: RunOutcome)
    requires store.Valid()
    modifies store`files
    ensures store.Valid()
    ensures var refused := Refused(store, old(store.files), ids, batchSize);
      refused.Some? ==> r == Aborted(refused.value) && store.files == old(store.files)
    ensures Refused(store, old(store.files), ids, batchSize).None? ==>
      && Ran(old(store.files), store.files, store.identity, store.sha, ids, batchSize, stops, r)
      && (steady ==> r.Done?)
  {
    hide Intact, History, Ids, SetOf, Torn, Loads, Listed, NoRepeats, Advanced, Pending;
    if batchSize < 1 || batchSize != store.batchSize { return Aborted(BadBatchSize); }
    var distinct := |SetOf(ids)| == |ids|;
    DistinctBySize(ids);
    if !distinct { return Aborted(DuplicateInput); }
    var loaded := store.LoadAll();
    if loaded.Err? { return Aborted(Unreadable); }
    var completed := Ids(loaded.value);
    if !(completed <= SetOf(ids)) { return Aborted(AbsentIds); }
    r := LabelAll(store, ids, completed, batchSize, stops, steady);
  }

  lemma {:induction false} DistinctBySize(ids: seq<string>)
    ensures |SetOf(ids)| <= |ids| && (|SetOf(ids)| == |ids| <==> NoRepeats(ids))
  {
    if ids != [] {
      var n := |ids| - 1;
      DistinctBySize(ids[..n]);
      assert ids == ids[..n] + [ids[n]];
      AddId(ids[..n], ids[n]);
      if ids[n] in SetOf(ids[..n]) {
        var i :| 0 <= i < n && ids[..n][i] == ids[n];
        assert ids[i] == ids[n];
      } else {
        assert forall i :: 0 <= i < n ==> ids[..n][i] == ids[i] && ids[i] in SetOf(ids[..n]);
      }
    }
  }

  /** The batch loop is before batch `k`. */
  ghost predicate Underway(
    store: CheckpointStore, before: Directory, ids: seq<string>, pending: seq<string>, batchSize: nat, stops: nat -> bool,
    k: nat, batchIndex: nat, completed: set<string>)
    reads store
  {
    && pending == Pending(ids, Ids(History(before))) && NoRepeats(pending) && SetOf(pending) !! Ids(History(before))
    && AtBoundary(before, store.files, store.identity, store.sha, ids, batchSize, stops, k)
    && batchIndex == |before.parquet| + k && completed == Ids(History(store.files))
  }

  /** One turn of the batch loop: a stop request, or the next batch. */
  method LabelNext(
    store: CheckpointStore, ids: seq<string>, pending: seq<string>, batchSize: nat, stops: nat -> bool, k: nat,
    offset: nat, batchIndex: nat, completed: set<string>, steady: bool, ghost before: Directory)
    returns (ended: Option<RunOutcome>, completed': set<string>)
    requires batchSize >= 1 && offset == k * batchSize < |pending| && NoRepeats(ids) && Ids(History(before)) <= SetOf(ids)
    requires Underway(store, before, ids, pending, batchSize, stops, k, batchIndex, completed)
    modifies store`files
    ensures steady && ended.Some? ==> ended.value.Done?
    ensures ended.None? ==> Underway(store, before, ids, pending, batchSize, stops, k + 1, batchIndex + 1, completed')
    ensures ended.Some? ==>
      store.Valid() && Ran(before, store.files, store.identity, store.sha, ids, batchSize, stops, ended.value)
  {
    hide Intact, History, Ids, SetOf, Torn, NoRepeats, Pending, WithBatch, Answers, Chunk, AtBoundary, Broken, Ran;
    completed' := completed;
    ghost var now := store.files;
    AtTheBoundary(before, now, store.identity, store.sha, ids, batchSize, stops, k);
    if stops(k) {
      var finished := Finish(completed, |ids|, true, steady);
      FinishedAt(before, now, store.identity, store.sha, ids, batchSize, stops, k, completed, true, finished);
      return Some(finished), completed;
    }
    var end := if offset + batchSize <= |pending| then offset + batchSize else |pending|;
    var batch := pending[offset..end];
    ChunkIsNew(before, now, store.identity, store.sha, ids, batchSize, stops, k, batch);
    var records;
    ended, records := RunBatch(store, batch, batchIndex, steady);
    if store.files == WithBatch(now, batchIndex, records, store.identity, store.sha) && Answers(records, batch) {
      BatchTaken(before, now, store.files, store.identity, store.sha, ids, batchSize, stops, k, records);
      if ended.Some? {
        CutAt(before, store.files, store.files, store.identity, store.sha, ids, batchSize, stops, k + 1, ended.value);
      }
    } else {
      CutAt(before, now, store.files, store.identity, store.sha, ids, batchSize, stops, k, ended.value);
    }
    completed' := completed + Ids(records);
  }

  lemma AtTheBoundary(
    before: Directory, now: Directory, identity: string, sha: seq<Record> -> string, ids: seq<string>,
    batchSize: nat, stops: nat -> bool, k: nat)
    requires AtBoundary(before, now, identity, sha, ids, batchSize, stops, k)
    ensures Intact(now, identity, sha) && |now.parquet| == |before.parquet| + k
  {
  }

  /** The run is cut off, before its next batch is stored or while it is being written. */
  lemma CutAt(
    before: Directory, now: Directory, after: Directory, identity: string, sha: seq<Record> -> string, ids: seq<string>,
    batchSize: nat, stops: nat -> bool, k: nat, r: RunOutcome)
    requires AtBoundary(before, now, identity, sha, ids, batchSize, stops, k)
    requires !r.Done? && (r.Aborted? ==> r.reason in {BadResponse, Raised}) && (after == now || Broken(now, after))
    ensures Ran(before, after, identity, sha, ids, batchSize, stops, r) && (Torn(after) || Intact(after, identity, sha))
  {
    hide Intact, History, Ids, Pending, AtBoundary;
    AtTheBoundary(before, now, identity, sha, ids, batchSize, stops, k);
    assert EndedAt(before, now, after, identity, sha, ids, batchSize, stops, k, r);
  }

  /** The run returns, or is cut off while it writes its last files. */
  lemma FinishedAt(
    before: Directory, now: Directory, identity: string, sha: seq<Record> -> string, ids: seq<string>, batchSize: nat,
    stops: nat -> bool, k: nat, completed: set<string>, interrupted: bool, r: RunOutcome)
    requires AtBoundary(before, now, identity, sha, ids, batchSize, stops, k)
    requires completed == Ids(History(now)) && NoRepeats(ids) && Ids(History(before)) <= SetOf(ids)
    requires if k * batchSize < |Pending(ids, Ids(History(before)))| then interrupted && stops(k) else !interrupted
    requires r == Done(|completed|, |ids|, interrupted) || r == Aborted(Raised) || r == Died
    ensures Ran(before, now, identity, sha, ids, batchSize, stops, r) && Intact(now, identity, sha)
  {
    hide Intact, History, Ids, Pending, SetOf, NoRepeats;
    if !interrupted {
      AllLabeled(before, now, identity, sha, ids, Pending(ids, Ids(History(before))));
    }
    assert EndedAt(before, now, now, identity, sha, ids, batchSize, stops, k, r);
  }

  /** The batch loop. */
  method LabelAll(
    store: CheckpointStore, ids: seq<string>, earlier: set<string>, batchSize: nat, stops: nat -> bool, steady: bool)
    returns (r: RunOutcome)
    requires Loads(store.files, store.identity, store.sha) && store.Valid()
    requires NoRepeats(ids) && earlier == Ids(Loaded(store.files)) <= SetOf(ids) && batchSize >= 1
    modifies store`files
    ensures store.Valid()
    ensures Ran(old(store.files), store.files, store.identity, store.sha, ids, batchSize, stops, r)
    ensures steady ==> r.Done?
  {
    hide Intact, History, Ids, SetOf, Torn, Loads, Listed, NoRepeats, Pending, WithBatch, Answers, AtBoundary, Ran;
    ghost var before := store.files;
    LoadedIsIntact(store);
    IntactLoads(store.files, store.identity, store.sha);
    PendingIsRest(ids, earlier);
    var pending := Pending(ids, earlier);
    Starting(before, store.identity, store.sha, ids, batchSize, stops);
    var indexes := store.BatchIndexes();
    var batchIndex: nat := |indexes.value|;
    var completed := earlier;
    var offset: nat, k: nat := 0, 0;
    while offset < |pending|
      invariant offset == k * batchSize
      invariant Underway(store, before, ids, pending, batchSize, stops, k, batchIndex, completed)
      decreases |pending| - offset
    {
      var ended;
      ended, completed := LabelNext(store, ids, pending, batchSize, stops, k, offset, batchIndex, completed, steady, before);
      if ended.Some? { return ended.value; }
      NextEdge(k, batchSize);
      offset, k, batchIndex := offset + batchSize, k + 1, batchIndex + 1;
    }
    r := Finish(completed, |ids|, false, steady);
    FinishedAt(before, store.files, store.identity, store.sha, ids, batchSize, stops, k, completed, false, r);
  }

  lemma Starting(
    before: Directory, identity: string, sha: seq<Record> -> string, ids: seq<string>, batchSize: nat, stops: nat -> bool)
    requires Intact(before, identity, sha)
    ensures AtBoundary(before, before, identity, sha, ids, batchSize, stops, 0)
  {
    hide Intact, History, Ids, Pending;
    var pending := Pending(ids, Ids(History(before)));
    assert Edge(pending, batchSize, 0) == 0;
    NotYet(before, identity, sha, pending);
  }

  lemma BatchTaken(
    before: Directory, now: Directory, after: Directory, identity: string, sha: seq<Record> -> string,
    ids: seq<string>, batchSize: nat, stops: nat -> bool, k: nat, records: seq<Record>)
    requires AtBoundary(before, now, identity, sha, ids, batchSize, stops, k) && batchSize >= 1 && !stops(k)
    requires var pending := Pending(ids, Ids(History(before)));
      && k * batchSize < |pending| && NoRepeats(pending) && SetOf(pending) !! Ids(History(before))
      && Answers(records, Chunk(pending, batchSize, k))
    requires after == WithBatch(now, |now.parquet|, records, identity, sha)
    ensures AtBoundary(before, after, identity, sha, ids, batchSize, stops, k + 1)
    ensures Ids(History(after)) == Ids(History(now)) + Ids(records)
  {
    hide Advanced, Answers, NoRepeats, WithBatch, Intact, History, Ids, SetOf, Refusal, Pending, Batched;
    var pending := Pending(ids, Ids(History(before)));
    NextEdge(k, batchSize);
    var length := |Chunk(pending, batchSize, k)|;
    assert Chunk(pending, batchSize, k) == pending[k * batchSize..k * batchSize + length];
    OneBatch(before, now, identity, sha, pending, k * batchSize, length, records);
    AtTheBoundary(before, now, identity, sha, ids, batchSize, stops, k);
    NextFree(now, identity, sha);
    BatchedNext(before, now, after, identity, sha, pending, batchSize, k, records);
  }

  lemma BatchedNext(
    before: Directory, now: Directory, after: Directory, identity: string, sha: seq<Record> -> string,
    pending: seq<string>, batchSize: nat, k: nat, records: seq<Record>)
    requires Batched(before, now, pending, batchSize, k) && k * batchSize < |pending|
    requires Answers(records, Chunk(pending, batchSize, k))
    requires |now.parquet| !in now.parquet && after == WithBatch(now, |now.parquet|, records, identity, sha)
    requires |after.parquet| == |now.parquet| + 1
    ensures Batched(before, after, pending, batchSize, k + 1)
  {
    hide Answers, Chunk;
    forall j | 0 <= j < k + 1 ensures NewBatch(before, after, pending, batchSize, j) {
      if j < k { assert NewBatch(before, now, pending, batchSize, j); }
    }
  }

  /** The progress and timing files at the end. */
  method Finish(completed: set<string>, total: nat, interrupted: bool, steady: bool) returns (r: RunOutcome)
    ensures r == Done(|completed|, total, interrupted) || (!steady && (r == Aborted(Raised) || r == Died))
  {
    var dies := Perhaps(steady);
    if dies { return Died; }
    var raises := Perhaps(steady);
    r := if raises then Aborted(Raised) else Done(|completed|, total, interrupted);
  }

  lemma LoadedIsIntact(store: CheckpointStore)
    requires store.Valid() && Loads(store.files, store.identity, store.sha)
    ensures Intact(store.files, store.identity, store.sha)
  {
  }

  lemma IntactIsNotTorn(d: Directory, identity: string, sha: seq<Record> -> string)
    requires Intact(d, identity, sha)
    ensures !Torn(d)
  {
  }

  lemma ChunkIsNew(
    before: Directory, now: Directory, identity: string, sha: seq<Record> -> string, ids: seq<string>, batchSize: nat,
    stops: nat -> bool, k: nat, batch: seq<string>)
    requires AtBoundary(before, now, identity, sha, ids, batchSize, stops, k) && batchSize >= 1
    requires var pending := Pending(ids, Ids(History(before))); var from := k * batchSize;
      && from < |pending| && NoRepeats(pending) && SetOf(pending) !! Ids(History(before))
      && batch == pending[from..if from + batchSize <= |pending| then from + batchSize else |pending|]
    ensures batch == Chunk(Pending(ids, Ids(History(before))), batchSize, k) && batch != []
    ensures NoRepeats(batch) && SetOf(batch) !! Ids(History(now))
  {
    hide Intact, History, Pending, SetOf, NoRepeats, Ids, Batched;
    var pending := Pending(ids, Ids(History(before)));
    NextChunk(pending, k * batchSize, |batch|);
    ChunkDisjoint(pending, k * batchSize, |batch|, Ids(History(before)));
  }

  lemma AllLabeled(
    before: Directory, after: Directory, identity: string, sha: seq<Record> -> string, ids: seq<string>, pending: seq<string>)
    requires NoRepeats(ids) && pending == Pending(ids, Ids(History(before)))
    requires Ids(History(before)) <= SetOf(ids) && Advanced(before, after, identity, sha, pending, |pending|)
    ensures Ids(History(after)) == SetOf(ids)
  {
    hide Intact, History, Ids;
    PendingIsRest(ids, Ids(History(before)));
    assert pending[..|pending|] == pending;
  }
}
