/** `V2CheckpointStore`: one Parquet file and one JSON file per labeled batch. */
module LabelStore {
  import opened Wrappers
  import opened Ranking
  import opened Queues
  import opened Sorting

  datatype Record = Record(sentenceId: string, scores: string)

  datatype Metadata = Metadata(identity: string, rowCount: nat, sha256: string)

  /** The checkpoint directory; `stray` tells of an entry that is neither kind of batch
      file, such as the temporary file an atomic write leaves when it is killed. */
  datatype Directory = Directory(parquet: map<nat, seq<Record>>, json: map<nat, Metadata>, stray: bool)

  /** File names carry six digits. */
  const NAMED_BATCHES: nat := 1_000_000

  ghost predicate UniqueIds(records: seq<Record>) {
    forall i, j :: 0 <= i < j < |records| ==> records[i].sentenceId != records[j].sentenceId
  }

  function Ids(records: seq<Record>): set<string> {
    set i | 0 <= i < |records| :: records[i].sentenceId
  }

  // ----- What a directory says -----

  /** `_indexes` accepts the directory. */
  ghost predicate Listed(d: Directory) {
    && !d.stray && d.parquet.Keys == d.json.Keys
    && forall i :: i in d.parquet ==> i < NAMED_BATCHES
  }

  ghost predicate Sealed(d: Directory, i: nat, identity: string, sha: seq<Record> -> string)
    requires i in d.parquet && i in d.json
  {
    d.json[i] == Metadata(identity, |d.parquet[i]|, sha(d.parquet[i]))
  }

  lemma SealedMeans(d: Directory, i: nat, identity: string, sha: seq<Record> -> string)
    requires i in d.parquet && i in d.json
    ensures Sealed(d, i, identity, sha) <==>
      d.json[i].identity == identity && d.json[i].sha256 == sha(d.parquet[i]) && d.json[i].rowCount == |d.parquet[i]|
  {
  }

  /** The batches named by `at`, one after another. */
  ghost function Chain(d: Directory, at: seq<nat>): seq<Record>
    requires forall i :: 0 <= i < |at| ==> at[i] in d.parquet
  {
    if at == [] then [] else Chain(d, at[..|at| - 1]) + d.parquet[at[|at| - 1]]
  }

  function ByIndex(): nat -> Key {
    (i: nat) => Key(i, 0, 0)
  }

  ghost function BatchOrder(d: Directory): (at: seq<nat>)
    ensures forall i :: 0 <= i < |at| ==> at[i] in d.parquet
  {
    var at := Sort(d.parquet.Keys, ByIndex());
    assert forall i :: 0 <= i < |at| ==> at[i] in Elements(at);
    at
  }

  /** What `load_all` accepts ... */
  ghost predicate Loads(d: Directory, identity: string, sha: seq<Record> -> string) {
    && Listed(d)
    && (forall i :: i in d.parquet ==> Sealed(d, i, identity, sha))
    && UniqueIds(Loaded(d))
  }

  /** ... and returns. */
  ghost function Loaded(d: Directory): seq<Record> {
    Chain(d, BatchOrder(d))
  }

  // ----- A directory this code has written -----

  ghost function Below(n: nat): set<nat> {
    if n == 0 then {} else Below(n - 1) + {n - 1}
  }

  lemma {:induction false} BelowMembers(n: nat)
    ensures |Below(n)| == n && forall i: nat :: i in Below(n) <==> i < n
  {
    if n > 0 { BelowMembers(n - 1); }
  }

  /** Batches `0 .. n`, complete, with no sentence in two of them. */
  ghost predicate Holds(d: Directory, n: nat, identity: string, sha: seq<Record> -> string) {
    && !d.stray && d.parquet.Keys == d.json.Keys == Below(n)
    && (forall i :: i in d.parquet ==> d.parquet[i] != [] && Sealed(d, i, identity, sha))
    && UniqueIds(Labeled(d, n))
  }

  /** The records of the batches below `n`, in batch order. */
  ghost function Labeled(d: Directory, n: nat): seq<Record> {
    if n == 0 then [] else Labeled(d, n - 1) + if n - 1 in d.parquet then d.parquet[n - 1] else []
  }

  /** Everything a directory of complete batches holds. */
  ghost function History(d: Directory): seq<Record> {
    Labeled(d, |d.parquet|)
  }

  ghost predicate Intact(d: Directory, identity: string, sha: seq<Record> -> string) {
    Holds(d, |d.parquet|, identity, sha)
  }

  /** A write that was killed or failed half way: nothing is read from it any more. */
  ghost predicate Torn(d: Directory) {
    d.stray || d.parquet.Keys != d.json.Keys
  }

  lemma TornNeverLoads(d: Directory, identity: string, sha: seq<Record> -> string)
    requires Torn(d)
    ensures !Listed(d) && !Loads(d, identity, sha)
  {
  }

  lemma HoldsCount(d: Directory, n: nat, identity: string, sha: seq<Record> -> string)
    requires Holds(d, n, identity, sha)
    ensures |d.parquet| == n
  {
    BelowMembers(n);
    assert |d.parquet| == |d.parquet.Keys|;
  }

  ghost function Numbers(n: nat): (s: seq<nat>)
    ensures |s| == n && forall i :: 0 <= i < n ==> s[i] == i
  {
    seq(n, i requires 0 <= i < n => i)
  }

  lemma {:induction false} ChainIsLabeled(d: Directory, n: nat)
    requires forall i :: 0 <= i < n ==> i in d.parquet
    ensures Chain(d, Numbers(n)) == Labeled(d, n)
  {
    if n > 0 {
      ChainIsLabeled(d, n - 1);
      assert Numbers(n)[..n - 1] == Numbers(n - 1);
    }
  }

  lemma OrderIsNumbers(d: Directory, n: nat)
    requires d.parquet.Keys == Below(n)
    ensures BatchOrder(d) == Numbers(n)
  {
    BelowMembers(n);
    assert Ascending(Numbers(n), ByIndex());
    forall i: nat ensures i in Elements(Numbers(n)) <==> i in Below(n) {
      if i < n { assert Numbers(n)[i] == i; }
    }
    SortUnique(BatchOrder(d), Numbers(n), ByIndex());
  }

  lemma IntactListed(d: Directory, identity: string, sha: seq<Record> -> string)
    requires Intact(d, identity, sha)
    ensures Listed(d) <==> |d.parquet| <= NAMED_BATCHES
  {
    hide Sealed, Labeled;
    var n := |d.parquet|;
    BelowMembers(n);
    if n > NAMED_BATCHES { assert n - 1 in d.parquet; }
  }

  lemma IntactLoaded(d: Directory, identity: string, sha: seq<Record> -> string)
    requires Intact(d, identity, sha)
    ensures Loaded(d) == History(d) && |BatchOrder(d)| == |d.parquet|
  {
    hide Sealed, BatchOrder;
    BelowMembers(|d.parquet|);
    OrderIsNumbers(d, |d.parquet|);
    ChainIsLabeled(d, |d.parquet|);
  }

  /** A directory of complete batches loads, up to the last name six digits can give. */
  lemma IntactLoads(d: Directory, identity: string, sha: seq<Record> -> string)
    requires Intact(d, identity, sha)
    ensures Loads(d, identity, sha) <==> |d.parquet| <= 1_000_000
    ensures Listed(d) <==> |d.parquet| <= 1_000_000
    ensures Loaded(d) == History(d) && |BatchOrder(d)| == |d.parquet|
  {
    hide Listed, Loaded, Sealed, BatchOrder;
    IntactListed(d, identity, sha);
    IntactLoaded(d, identity, sha);
  }

  /** A directory sealed for one run never loads for another, and a sealed batch whose rows
      were changed loads no more, unless the digest does not notice. */
  lemma ForeignNeverLoads(d: Directory, identity: string, other: string, sha: seq<Record> -> string)
    requires Intact(d, identity, sha) && d.parquet != map[] && other != identity
    ensures !Loads(d, other, sha)
  {
    var i :| i in d.parquet;
    assert Sealed(d, i, identity, sha) && !Sealed(d, i, other, sha);
  }

  lemma TamperedNeverLoads(
    d: Directory, identity: string, sha: seq<Record> -> string, i: nat, records: seq<Record>)
    requires Intact(d, identity, sha) && i in d.parquet
    requires sha(records) != sha(d.parquet[i]) || |records| != |d.parquet[i]|
    ensures !Loads(d.(parquet := d.parquet[i := records]), identity, sha)
  {
    assert Sealed(d, i, identity, sha) && !Sealed(d.(parquet := d.parquet[i := records]), i, identity, sha);
  }

  /** A new batch is written once and for all, behind the earlier ones. */
  lemma Appended(d: Directory, identity: string, sha: seq<Record> -> string, records: seq<Record>)
    requires Intact(d, identity, sha) && records != [] && UniqueIds(History(d) + records)
    ensures |d.parquet| !in d.parquet && |d.parquet| !in d.json
    ensures var d' := WithBatch(d, |d.parquet|, records, identity, sha);
      Intact(d', identity, sha) && History(d') == History(d) + records && |d'.parquet| == |d.parquet| + 1
  {
    hide Holds, Labeled, WithBatch, UniqueIds;
    AppendedAt(d, |d.parquet|, identity, sha, records);
    HoldsCount(WithBatch(d, |d.parquet|, records, identity, sha), |d.parquet| + 1, identity, sha);
  }

  lemma AppendedAt(d: Directory, n: nat, identity: string, sha: seq<Record> -> string, records: seq<Record>)
    requires Holds(d, n, identity, sha) && records != [] && UniqueIds(Labeled(d, n) + records)
    ensures n !in d.parquet && n !in d.json
    ensures Holds(WithBatch(d, n, records, identity, sha), n + 1, identity, sha)
    ensures Labeled(WithBatch(d, n, records, identity, sha), n + 1) == Labeled(d, n) + records
  {
    hide UniqueIds;
    var d' := WithBatch(d, n, records, identity, sha);
    BelowMembers(n);
    LabeledFrame(d, d', n);
    assert Labeled(d', n + 1) == Labeled(d, n) + records;
    NewBatchSealed(d, n, identity, sha, records);
    hide Sealed, Labeled, WithBatch;
    assert Below(n + 1) == Below(n) + {n};
  }

  lemma NewBatchSealed(d: Directory, n: nat, identity: string, sha: seq<Record> -> string, records: seq<Record>)
    requires d.parquet.Keys == d.json.Keys && records != []
    requires forall i :: i in d.parquet ==> d.parquet[i] != [] && Sealed(d, i, identity, sha)
    ensures var d' := WithBatch(d, n, records, identity, sha);
      d'.parquet.Keys == d'.json.Keys == d.parquet.Keys + {n}
      && forall i :: i in d'.parquet ==> d'.parquet[i] != [] && Sealed(d', i, identity, sha)
  {
  }

  function WithBatch(d: Directory, n: nat, records: seq<Record>, identity: string, sha: seq<Record> -> string): Directory {
    d.(parquet := d.parquet[n := records], json := d.json[n := Metadata(identity, |records|, sha(records))])
  }

  lemma {:induction false} LabeledFrame(d: Directory, d': Directory, n: nat)
    requires forall i :: 0 <= i < n ==> (i in d.parquet <==> i in d'.parquet)
    requires forall i :: 0 <= i < n && i in d.parquet ==> d'.parquet[i] == d.parquet[i]
    ensures Labeled(d', n) == Labeled(d, n)
  {
    if n > 0 { LabeledFrame(d, d', n - 1); }
  }

  // ----- The store -----

  /** How a write ends: `Killed` leaves whatever the moment left behind, `Failed` is an
      exception the caller sees. */
  datatype Written = Stored | Failed(reason: Reason) | Killed

  datatype Reason =
    Unreadable | DuplicateInput | AbsentIds | EmptyBatch | DuplicateRecord | BatchExists | BadResponse | Raised | BadBatchSize

  /** What may happen at one atomic file write. */
  datatype Fate = Goes | RaisesBefore | RaisesAfter | DiesBefore | DiesMidway | DiesAfter

  method Outside(steady: bool) returns (fate: Fate)
    ensures steady ==> fate.Goes?
  {
    fate := *;
    if steady { fate := Goes; }
  }

  class CheckpointStore {
    const identity: string
    const batchSize: nat
    const sha: seq<Record> -> string
    var files: Directory

    /** Every state the store can be in, across kills and restarts. */
    ghost predicate Valid()
      reads this
    {
      Torn(files) || Intact(files, identity, sha)
    }

    constructor (identity: string, batchSize: nat, sha: seq<Record> -> string)
      ensures files == Directory(map[], map[], false) && Valid()
      ensures this.identity == identity && this.batchSize == batchSize && this.sha == sha
    {
      this.identity, this.batchSize, this.sha := identity, batchSize, sha;
      files := Directory(map[], map[], false);
    }

    /** `batch_indexes`. */
    method BatchIndexes() returns (r: Result<seq<nat>>)
      ensures r.Ok? <==> Listed(files)
      ensures r.Ok? ==> r.value == BatchOrder(files)
    {
      if files.stray { return Err("unexpected V2 checkpoint entry"); }
      if i :| i in files.parquet && i >= NAMED_BATCHES { return Err("unexpected V2 checkpoint entry"); }
      if files.parquet.Keys != files.json.Keys { return Err("V2 checkpoint batch is incomplete"); }
      var sorted := SortSet(files.parquet.Keys, ByIndex());
      return Ok(sorted);
    }

    /** `load_all`: every batch is checked against its metadata and no sentence comes twice. */
    method LoadAll() returns (r: Result<seq<Record>>)
      ensures r.Ok? <==> Loads(files, identity, sha)
      ensures r.Ok? ==> r.value == Loaded(files)
    {
      hide Sealed, Chain, UniqueIds, Listed, BatchOrder, Loads;
      var listed := BatchIndexes();
      LoadingStarts(files, identity, sha);
      if listed.Err? { return Err(listed.message); }
      var at := listed.value;
      var result: seq<Record> := [];
      for k := 0 to |at|
        invariant forall j :: 0 <= j < k ==> Sealed(files, at[j], identity, sha)
        invariant result == Chain(files, at[..k]) && UniqueIds(result)
      {
        LoadingStep(files, at, k, identity, sha);
        var metadata, records := files.json[at[k]], files.parquet[at[k]];
        SealedMeans(files, at[k], identity, sha);
        if metadata.identity != identity { return Err("V2 checkpoint identity mismatch"); }
        if metadata.sha256 != sha(records) { return Err("V2 checkpoint SHA-256 mismatch"); }
        if metadata.rowCount != |records| { return Err("V2 checkpoint row count mismatch"); }
        var distinct := NoRepeats(result, records);
        if !distinct { return Err("duplicate sentence ID in V2 checkpoints"); }
        result := result + records;
      }
      LoadingEnds(files, at, identity, sha);
      return Ok(result);
    }

    /** `write_batch`. */
    method WriteBatch(index: nat, records: seq<Record>, steady: bool) returns (r: Written)
      modifies this`files
      ensures old(Refusal(files, index, records)).Some? ==>
        r == Failed(old(Refusal(files, index, records)).value) && files == old(files)
      ensures old(Refusal(files, index, records)).None? ==>
        && (steady ==> r.Stored?)
        && (r.Stored? ==> files == WithBatch(old(files), index, records, identity, sha))
        && (r.Failed? ==>
            r.reason == Raised && (files == old(files) || HalfWritten(old(files), files, index, records, identity, sha)))
        && (r.Killed? ==>
            || files == old(files) || HalfWritten(old(files), files, index, records, identity, sha)
            || files == WithBatch(old(files), index, records, identity, sha))
    {
      if records == [] { return Failed(EmptyBatch); }
      var distinct := AllDistinct(records);
      if !distinct { return Failed(DuplicateRecord); }
      if index in files.parquet || index in files.json { return Failed(BatchExists); }
      var before := files;
      var fate := Outside(steady);
      if fate.RaisesBefore? { return Failed(Raised); }
      if fate.DiesBefore? { return Killed; }
      if fate.DiesMidway? { files := files.(stray := true); return Killed; }
      files := files.(parquet := files.parquet[index := records]);
      if fate.RaisesAfter? { return Failed(Raised); }
      if fate.DiesAfter? { return Killed; }
      fate := Outside(steady);
      // An exception while the metadata is written takes the Parquet file back.
      if fate.RaisesBefore? { files := before; return Failed(Raised); }
      if fate.DiesBefore? { return Killed; }
      if fate.DiesMidway? { files := files.(stray := true); return Killed; }
      files := files.(json := files.json[index := Metadata(identity, |records|, sha(records))]);
      if fate.RaisesAfter? {
        files := files.(parquet := before.parquet);
        return Failed(Raised);
      }
      if fate.DiesAfter? { return Killed; }
      r := Stored;
    }
  }

  /** Why a batch is not written at all. */
  ghost function Refusal(d: Directory, index: nat, records: seq<Record>): Option<Reason> {
    if records == [] then Some(EmptyBatch)
    else if !UniqueIds(records) then Some(DuplicateRecord)
    else if index in d.parquet || index in d.json then Some(BatchExists)
    else None
  }

  /** One file of the pair, or a temporary file, is there without the rest; nothing else
      has changed. */
  ghost predicate HalfWritten(
    before: Directory, d: Directory, index: nat, records: seq<Record>, identity: string, sha: seq<Record> -> string)
  {
    var whole := WithBatch(before, index, records, identity, sha);
    && d.parquet in {before.parquet, whole.parquet} && d.json in {before.json, whole.json}
    && (d.stray || (index in d.parquet && index !in d.json) || (index in d.json && index !in d.parquet))
  }

  /** A write into `now` that did not get through: the directory is closed, and every file of
      `now` is still there as it was. */
  ghost predicate Broken(now: Directory, after: Directory) {
    && Torn(after)
    && (forall i :: i in now.parquet ==> i in after.parquet && after.parquet[i] == now.parquet[i])
    && (forall i :: i in now.json ==> i in after.json && after.json[i] == now.json[i])
    && after.parquet.Keys <= now.parquet.Keys + {|now.parquet|} && after.json.Keys <= now.json.Keys + {|now.parquet|}
  }

  lemma HalfWrittenIsTorn(
    before: Directory, d: Directory, records: seq<Record>, identity: string, sha: seq<Record> -> string)
    requires HalfWritten(before, d, |before.parquet|, records, identity, sha)
    requires |before.parquet| !in before.parquet && |before.parquet| !in before.json
    ensures Broken(before, d)
  {
  }

  /** `len(record_ids) != len(set(record_ids))`. */
  method AllDistinct(records: seq<Record>) returns (distinct: bool)
    ensures distinct <==> UniqueIds(records)
  {
    distinct := NoRepeats([], records);
    assert [] + records == records;
  }

  /** Add the records one by one to the identifiers seen so far. */
  method NoRepeats(seen: seq<Record>, records: seq<Record>) returns (ok: bool)
    requires UniqueIds(seen)
    ensures ok <==> UniqueIds(seen + records)
  {
    var ids := Ids(seen);
    assert seen + records[..0] == seen;
    for i := 0 to |records|
      invariant UniqueIds(seen + records[..i]) && ids == Ids(seen + records[..i])
    {
      OneMore(seen + records[..i], records[i]);
      assert (seen + records[..i]) + [records[i]] == seen + records[..i + 1];
      if records[i].sentenceId in ids {
        NotUnique(seen + records[..i + 1], records[i + 1..]);
        assert seen + records[..i + 1] + records[i + 1..] == seen + records;
        return false;
      }
      ids := ids + {records[i].sentenceId};
    }
    assert records[..|records|] == records;
    ok := true;
  }

  lemma OneMore(records: seq<Record>, x: Record)
    requires UniqueIds(records)
    ensures UniqueIds(records + [x]) <==> x.sentenceId !in Ids(records)
    ensures Ids(records + [x]) == Ids(records) + {x.sentenceId}
  {
    var all := records + [x];
    assert forall i :: 0 <= i < |records| ==> all[i] == records[i];
    if x.sentenceId in Ids(records) {
      var i :| 0 <= i < |records| && records[i].sentenceId == x.sentenceId;
      assert all[i].sentenceId == all[|records|].sentenceId;
    }
    forall id ensures id in Ids(all) <==> id in Ids(records) + {x.sentenceId} {
      if id in Ids(records) {
        var i :| 0 <= i < |records| && records[i].sentenceId == id;
        assert all[i].sentenceId == id;
      }
      if id == x.sentenceId { assert all[|records|].sentenceId == id; }
    }
  }

  lemma NotUnique(a: seq<Record>, b: seq<Record>)
    requires !UniqueIds(a)
    ensures !UniqueIds(a + b)
  {
    var i, j :| 0 <= i < j < |a| && a[i].sentenceId == a[j].sentenceId;
    assert (a + b)[i].sentenceId == (a + b)[j].sentenceId;
  }

  lemma {:induction false} ChainPrefix(d: Directory, at: seq<nat>, k: nat)
    requires k <= |at| && forall i :: 0 <= i < |at| ==> at[i] in d.parquet
    ensures UniqueIds(Chain(d, at)) ==> UniqueIds(Chain(d, at[..k]))
    decreases |at|
  {
    if k == |at| {
      assert at[..k] == at;
    } else {
      var n := |at| - 1;
      ChainPrefix(d, at[..n], k);
      assert at[..n][..k] == at[..k];
      if UniqueIds(Chain(d, at)) && !UniqueIds(Chain(d, at[..n])) {
        NotUnique(Chain(d, at[..n]), d.parquet[at[n]]);
      }
    }
  }

  lemma LoadingStarts(d: Directory, identity: string, sha: seq<Record> -> string)
    ensures Loads(d, identity, sha) ==> Listed(d)
    ensures Listed(d) ==> forall i :: 0 <= i < |BatchOrder(d)| ==> BatchOrder(d)[i] in d.json
    ensures Chain(d, []) == [] && UniqueIds([])
  {
  }

  lemma LoadingStep(d: Directory, at: seq<nat>, k: nat, identity: string, sha: seq<Record> -> string)
    requires at == BatchOrder(d) && k < |at| && Listed(d)
    ensures Chain(d, at[..k + 1]) == Chain(d, at[..k]) + d.parquet[at[k]]
    ensures !Sealed(d, at[k], identity, sha) || !UniqueIds(Chain(d, at[..k + 1])) ==> !Loads(d, identity, sha)
  {
    hide UniqueIds, Sealed, Chain;
    ChainStep(d, at, k);
    ChainPrefix(d, at, k + 1);
  }

  lemma ChainStep(d: Directory, at: seq<nat>, k: nat)
    requires k < |at| && forall i :: 0 <= i < |at| ==> at[i] in d.parquet
    ensures Chain(d, at[..k + 1]) == Chain(d, at[..k]) + d.parquet[at[k]]
  {
    assert at[..k + 1][..k] == at[..k];
  }

  lemma LoadingEnds(d: Directory, at: seq<nat>, identity: string, sha: seq<Record> -> string)
    requires at == BatchOrder(d) && Listed(d) && UniqueIds(Chain(d, at[..|at|]))
    requires forall j :: 0 <= j < |at| ==> Sealed(d, at[j], identity, sha)
    ensures Loads(d, identity, sha) && Chain(d, at[..|at|]) == Loaded(d)
  {
    assert at[..|at|] == at;
    hide UniqueIds;
    SealedEverywhere(d, at, identity, sha);
  }

  lemma SealedEverywhere(d: Directory, at: seq<nat>, identity: string, sha: seq<Record> -> string)
    requires Listed(d) && at == BatchOrder(d)
    requires forall j :: 0 <= j < |at| ==> Sealed(d, at[j], identity, sha)
    ensures forall i :: i in d.parquet ==> Sealed(d, i, identity, sha)
  {
    forall i | i in d.parquet ensures Sealed(d, i, identity, sha) {
      assert i in Elements(at);
    }
  }
}
