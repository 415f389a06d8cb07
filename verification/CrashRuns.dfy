/** Any sequence of calls of the resumable sampler on one state directory. */
module CrashRuns {
  import opened Wrappers
  import opened SentenceTable
  import opened Selection
  import opened SamplingPlan
  import opened ShardCorpus
  import opened V2Ledger
  import opened V2Store
  import opened V2Resumable

  /** One call, with whether its process may be killed. */
  datatype Call = Call(
    path: string, shards: seq<FinalizedShard>, target: int, seed: string, batchSize: int, mayCrash: bool)

  // ----- What the outputs are -----

  /** The reference selection of the directory's job, at some target reached so far. */
  ghost predicate Published(d: Durable, world: World, rows: seq<Row>)
    requires Sound(world)
  {
    d.state.Some? && exists t: nat :: t <= d.state.value.target && ReferenceAt(d, world, t, rows)
  }

  ghost predicate ReferenceAt(d: Durable, world: World, t: nat, rows: seq<Row>)
    requires d.state.Some?
  {
    var job := JobIn(d, world).(target := t);
    JobReady(job) && rows == Reference(job)
  }

  ghost predicate FilesPublished(d: Durable, world: World, files: map<string, seq<Row>>)
    requires Sound(world)
  {
    forall p :: p in files ==> Published(d, world, files[p])
  }

  /** Outputs of one state directory are prefixes of one another. */
  lemma FilesNested(d: Durable, world: World, files: map<string, seq<Row>>, p: string, q: string)
    requires Sound(world) && FilesPublished(d, world, files) && p in files && q in files
    ensures files[p] <= files[q] || files[q] <= files[p]
    ensures |files[p]| <= |files[q]| ==> files[p] <= files[q]
  {
    hide SelectedRows, CollisionFree, Plannable;
    assert Published(d, world, files[p]) && Published(d, world, files[q]);
    var t: nat :| t <= d.state.value.target && ReferenceAt(d, world, t, files[p]);
    var u: nat :| u <= d.state.value.target && ReferenceAt(d, world, u, files[q]);
    NestedReferences(JobIn(d, world), t, u);
    NestedReferences(JobIn(d, world), u, t);
  }

  lemma NestedReferences(job: Job, t: nat, u: nat)
    requires JobReady(job.(target := t)) && JobReady(job.(target := u))
    ensures t <= u ==> Reference(job.(target := t)) <= Reference(job.(target := u))
  {
    if t <= u { SelectedRowsNested(Rows(job.corpus), t, u, job.ranks); }
  }

  /** A call neither changes nor invalidates what earlier calls published. */
  lemma PublishedStays(
    d: Durable, d': Durable, world: World, ordered: seq<FinalizedShard>, seed: string, target: nat, rows: seq<Row>)
    requires Sound(world) && FrozenBy(d, d', ordered, seed, target) && Published(d, world, rows)
    ensures Published(d', world, rows)
  {
    hide JobReady, Reference;
    var t: nat :| t <= d.state.value.target && ReferenceAt(d, world, t, rows);
    assert JobIn(d', world).(target := t) == JobIn(d, world).(target := t);
    assert ReferenceAt(d', world, t, rows);
  }

  lemma PublishedNow(d: Durable, d': Durable, world: World, ordered: seq<FinalizedShard>, seed: string, target: nat)
    requires Sound(world) && FrozenBy(d, d', ordered, seed, target)
    requires d'.state.Some? && d'.state.value.target == target
    requires JobReady(CallJob(world, ordered, target, seed))
    ensures Published(d', world, Reference(CallJob(world, ordered, target, seed)))
  {
    hide JobReady, Reference;
    var job := CallJob(world, ordered, target, seed);
    assert JobIn(d', world).(target := target) == job;
    assert ReferenceAt(d', world, target, Reference(job));
  }

  // ----- What a call answers -----

  /** A completed call's file is the reference selection of its own shards in key order. */
  ghost predicate Answered(call: Call, r: Outcome, world: World, files: map<string, seq<Row>>)
    requires Sound(world)
  {
    r.Completed? ==> call.path in files && Exact(call, world, files[call.path])
  }

  ghost predicate Exact(call: Call, world: World, rows: seq<Row>) {
    exists ordered :: ExactFor(call, world, ordered, rows)
  }

  ghost predicate ExactFor(call: Call, world: World, ordered: seq<FinalizedShard>, rows: seq<Row>) {
    && call.target >= 1 && AscendingKeys(ordered) && SameShards(ordered, call.shards)
    && var job := CallJob(world, ordered, call.target, call.seed);
    JobReady(job) && rows == Reference(job)
  }

  /** Repeated calls of one job: only targets and batch sizes vary, and no path is reused. */
  ghost predicate Steady(calls: seq<Call>) {
    && (forall i :: 0 <= i < |calls| ==>
      calls[i].target >= 1 && calls[i].batchSize >= 1 && calls[i].seed != "" && ShardsAccepted(calls[i].shards))
    && (forall i, j :: 0 <= i < j < |calls| ==>
      && calls[i].seed == calls[j].seed && calls[i].shards == calls[j].shards
      && calls[i].target <= calls[j].target && calls[i].path != calls[j].path)
  }

  /** The table a call selects from is one the planners accept. */
  ghost predicate TableAccepted(call: Call, world: World) {
    forall ordered :: AscendingKeys(ordered) && SameShards(ordered, call.shards) ==>
      Plannable(Rows(Resolve(ordered, world.content)))
  }

  /** What a completed or interrupted call leaves in the outputs. */
  lemma FilesAfter(
    d: Durable, d': Durable, world: World, ordered: seq<FinalizedShard>, call: Call, target: nat, r: Outcome,
    files: map<string, seq<Row>>, files': map<string, seq<Row>>)
    requires Sound(world) && FilesPublished(d, world, files) && target == call.target >= 1
    requires FrozenBy(d, d', ordered, call.seed, target) && AscendingKeys(ordered) && SameShards(ordered, call.shards)
    requires Ran(CallJob(world, ordered, target, call.seed), r, files, files', call.path)
    requires r.Completed? || files' != files ==> d'.state.Some? && d'.state.value.target == target
    ensures FilesPublished(d', world, files') && Answered(call, r, world, files')
  {
    hide JobReady, Reference, Published, AscendingKeys, SameShards, Plannable;
    forall p | p in files ensures Published(d', world, files[p]) {
      PublishedStays(d, d', world, ordered, call.seed, target, files[p]);
    }
    if r.Completed? || files' != files {
      PublishedNow(d, d', world, ordered, call.seed, target);
      assert ExactFor(call, world, ordered, files'[call.path]);
    }
  }

  method RunCall(store: SamplingStore, outputs: Outputs, call: Call, world: World)
    returns (r: Outcome, ghost ordered: seq<FinalizedShard>)
    requires Sound(world) && store.Valid(world) && FilesPublished(store.Snapshot(), world, outputs.files)
    modifies store, outputs
    ensures store.Valid(world) && FilesPublished(store.Snapshot(), world, outputs.files)
    ensures Answered(call, r, world, outputs.files) && (!call.mayCrash ==> !r.Crashed?)
    ensures forall p :: p in old(outputs.files) ==> p in outputs.files && outputs.files[p] == old(outputs.files)[p]
    ensures forall p :: p in outputs.files && p !in old(outputs.files) ==> p == call.path
    ensures old(Admissible(store.Snapshot(), call.shards, call.target, call.seed, call.batchSize) && call.path !in outputs.files) ==>
      && call.target >= 0 && SameShards(ordered, call.shards)
      && (store.databaseExists || (r.Crashed? && store.Snapshot() == old(store.Snapshot())))
      && (!r.Crashed? ==> store.state.Some?)
      && (r.Rejected? ==> !TableAccepted(call, world))
      && FrozenBy(old(store.Snapshot()), store.Snapshot(), ordered, call.seed, call.target)
    ensures !old(Admissible(store.Snapshot(), call.shards, call.target, call.seed, call.batchSize) && call.path !in outputs.files) ==>
      r.Rejected? && store.Snapshot() == old(store.Snapshot())
  {
    hide DurableValid, SameShards, ShardsAccepted, StateAccepts, JobReady, Reference, AscendingKeys, Plannable, Published, FrozenBy;
    ghost var before, files := store.Snapshot(), outputs.files;
    r, ordered := SelectShards(
      store, outputs, call.path, call.shards, call.target, call.seed, call.batchSize, call.mayCrash, world);
    if Admissible(before, call.shards, call.target, call.seed, call.batchSize) && call.path !in files {
      FilesAfter(before, store.Snapshot(), world, ordered, call, call.target, r, files, outputs.files);
    }
  }

  // ----- All calls -----

  /** The directory is fresh, or holds the calls' job, or some call died between creating the
      database and writing `state.json`, and it lets nobody in any more. */
  ghost predicate Settled(d: Durable, calls: seq<Call>, i: nat)
    requires i <= |calls|
  {
    if i == 0 then d.state.None? && !d.databaseExists
    else d.state.Some? ==>
      && d.state.value.seed == calls[0].seed && d.state.value.target <= calls[i - 1].target
      && SameShards(d.ordered, calls[0].shards)
  }

  lemma SettledAdmits(d: Durable, calls: seq<Call>, i: nat, world: World)
    requires Sound(world) && DurableValid(d, world) && Steady(calls) && i < |calls| && Settled(d, calls, i)
    ensures var c := calls[i];
      Admissible(d, c.shards, c.target, c.seed, c.batchSize) <==> d.state.Some? || !d.databaseExists
  {
    hide TablesValid, CacheValid, CollisionFree, DistinctKeys, ShardsAccepted;
    if d.state.Some? {
      SameIdentities(d.ordered, calls[0].shards, d.state.value.shards);
    }
  }

  /** No call has written `state.json`: all died before that, or, once one of them had created
      the database, were refused. `creator` tells which. */
  ghost predicate NoneStarted(results: seq<Outcome>, creator: Option<nat>) {
    match creator
    case None => forall k :: 0 <= k < |results| ==> results[k].Crashed?
    case Some(c) => c < |results| && forall k :: 0 <= k < |results| ==> if k <= c then results[k].Crashed? else results[k].Rejected?
  }

  /** What steady calls have done so far. */
  ghost predicate Underway(d: Durable, calls: seq<Call>, results: seq<Outcome>, creator: Option<nat>, world: World)
    requires |results| <= |calls|
  {
    && Settled(d, calls, |results|)
    && (d.state.None? ==> NoneStarted(results, creator) && (creator.Some? <==> d.databaseExists))
    && (d.state.Some? ==> forall k :: 0 <= k < |results| ==>
        !calls[k].mayCrash && TableAccepted(calls[k], world) ==> results[k].Completed?)
    && (forall k :: 0 <= k < |results| ==> !calls[k].mayCrash ==> !results[k].Crashed?)
  }

  ghost function Creator(creator: Option<nat>, i: nat, d: Durable): Option<nat> {
    if creator.None? && d.databaseExists then Some(i) else creator
  }

  /** What one call with an unused path does to the directory. */
  ghost predicate Effect(c: Call, d: Durable, d': Durable, r: Outcome, ordered: seq<FinalizedShard>, world: World) {
    && (!c.mayCrash ==> !r.Crashed?)
    && (Admissible(d, c.shards, c.target, c.seed, c.batchSize) ==>
      && SameShards(ordered, c.shards) && c.target >= 0 && (d'.databaseExists || (r.Crashed? && d' == d))
      && (!r.Crashed? ==> d'.state.Some?) && (r.Rejected? ==> !TableAccepted(c, world))
      && FrozenBy(d, d', ordered, c.seed, c.target))
    && (!Admissible(d, c.shards, c.target, c.seed, c.batchSize) ==> r.Rejected? && d' == d)
  }

  lemma SettledStep(
    d: Durable, d': Durable, calls: seq<Call>, i: nat, r: Outcome, ordered: seq<FinalizedShard>, world: World)
    requires Sound(world) && DurableValid(d, world) && Steady(calls) && i < |calls| && Settled(d, calls, i)
    requires Effect(calls[i], d, d', r, ordered, world)
    ensures Settled(d', calls, i + 1)
    ensures Admissible(d, calls[i].shards, calls[i].target, calls[i].seed, calls[i].batchSize)
      <==> d.state.Some? || !d.databaseExists
  {
    SettledAdmits(d, calls, i, world);
    hide DurableValid, SameShards, ShardsAccepted, Admissible, TableAccepted;
  }

  lemma OneMoreCall(
    d: Durable, d': Durable, calls: seq<Call>, results: seq<Outcome>, creator: Option<nat>, r: Outcome,
    ordered: seq<FinalizedShard>, world: World)
    requires Sound(world) && DurableValid(d, world) && Steady(calls) && |results| < |calls|
    requires Underway(d, calls, results, creator, world) && Effect(calls[|results|], d, d', r, ordered, world)
    ensures Underway(d', calls, results + [r], Creator(creator, |results|, d'), world)
  {
    hide DurableValid, SameShards, Admissible, TableAccepted, Settled, Steady, Effect, NoneStarted, Creator, Sound;
    SettledStep(d, d', calls, |results|, r, ordered, world);
    StateStays(calls[|results|], d, d', r, ordered, world);
    if d'.state.None? {
      NoneStartedStep(results, r, creator, |results|, d, d');
    } else if d.state.None? {
      AllKilled(results, creator);
    }
  }

  lemma AllKilled(results: seq<Outcome>, creator: Option<nat>)
    requires NoneStarted(results, creator) && creator.None?
    ensures forall k :: 0 <= k < |results| ==> results[k].Crashed?
  {
  }

  lemma StateStays(c: Call, d: Durable, d': Durable, r: Outcome, ordered: seq<FinalizedShard>, world: World)
    requires Effect(c, d, d', r, ordered, world)
    requires Admissible(d, c.shards, c.target, c.seed, c.batchSize) <==> d.state.Some? || !d.databaseExists
    ensures d.state.Some? ==> d'.state.Some?
    ensures !c.mayCrash ==> !r.Crashed?
    ensures d.state.Some? || !d.databaseExists ==> (r.Rejected? ==> !TableAccepted(c, world))
    ensures d'.state.None? ==>
      if d.databaseExists then r.Rejected? && d'.databaseExists else r.Crashed?
    ensures d.state.None? && d.databaseExists ==> d'.state.None?
  {
    hide SameShards, Admissible, TableAccepted;
  }

  lemma NoneStartedStep(results: seq<Outcome>, r: Outcome, creator: Option<nat>, i: nat, d: Durable, d': Durable)
    requires NoneStarted(results, creator) && i == |results| && (creator.Some? <==> d.databaseExists)
    requires if d.databaseExists then r.Rejected? && d'.databaseExists else r.Crashed?
    ensures NoneStarted(results + [r], Creator(creator, i, d'))
    ensures Creator(creator, i, d').Some? <==> d'.databaseExists
  {
  }

  lemma UnusedPath(calls: seq<Call>, i: nat, files: map<string, seq<Row>>)
    requires Steady(calls) && i < |calls|
    requires forall p :: p in files ==> exists k :: 0 <= k < i && calls[k].path == p
    ensures calls[i].path !in files
  {
  }

  /** For every sequence of calls, crashes included: each completed call's output, and in fact
      every file ever published, is the reference selection; and when only targets (growing)
      and batch sizes vary, every call that is not killed completes, unless an earlier one
      died between creating the database and writing the first `state.json`. */
  method RunCalls(calls: seq<Call>, world: World)
    returns (files: map<string, seq<Row>>, results: seq<Outcome>, ghost end: Durable)
    requires Sound(world)
    ensures |results| == |calls| && DurableValid(end, world) && FilesPublished(end, world, files)
    ensures forall i :: 0 <= i < |calls| ==> Answered(calls[i], results[i], world, files)
    ensures Steady(calls) && end.state.Some? ==> forall i :: 0 <= i < |calls| ==>
      !calls[i].mayCrash && TableAccepted(calls[i], world) ==> results[i].Completed?
    ensures Steady(calls) && end.state.None? ==>
      files == map[] && exists creator :: NoneStarted(results, creator) && (creator.Some? <==> end.databaseExists)
  {
    hide DurableValid, SameShards, ShardsAccepted, Admissible, AscendingKeys, Published, Answered, TableAccepted, Steady,
      FrozenBy;
    var store := new SamplingStore();
    var outputs := new Outputs();
    results := [];
    FreshIsValid(store, world);
    ghost var creator: Option<nat> := None;
    for i := 0 to |calls|
      invariant |results| == i && store.Valid(world)
      invariant fresh(store) && fresh(outputs)
      invariant FilesPublished(store.Snapshot(), world, outputs.files)
      invariant forall k :: 0 <= k < i ==> Answered(calls[k], results[k], world, outputs.files)
      invariant forall p :: p in outputs.files ==> exists k :: 0 <= k < i && calls[k].path == p
      invariant Steady(calls) ==> Underway(store.Snapshot(), calls, results, creator, world)
    {
      ghost var before, published, earlier := store.Snapshot(), outputs.files, results;
      var r;
      ghost var ordered;
      r, ordered := RunCall(store, outputs, calls[i], world);
      results := results + [r];
      if Steady(calls) {
        UnusedPath(calls, i, published);
        OneMoreCall(before, store.Snapshot(), calls, earlier, creator, r, ordered, world);
      }
      creator := Creator(creator, i, store.Snapshot());
      forall k | 0 <= k < i ensures Answered(calls[k], results[k], world, outputs.files) {
        AnsweredStays(calls[k], earlier[k], world, published, outputs.files);
      }
    }
    NothingPublished(store.Snapshot(), world, outputs.files);
    files, end := outputs.files, store.Snapshot();
  }

  lemma AnsweredStays(call: Call, r: Outcome, world: World, files: map<string, seq<Row>>, files': map<string, seq<Row>>)
    requires Sound(world) && Answered(call, r, world, files)
    requires forall p :: p in files ==> p in files' && files'[p] == files[p]
    ensures Answered(call, r, world, files')
  {
  }

  lemma NothingPublished(d: Durable, world: World, files: map<string, seq<Row>>)
    requires Sound(world) && FilesPublished(d, world, files)
    ensures d.state.None? ==> files == map[]
  {
    if files != map[] {
      var p :| p in files;
      assert Published(d, world, files[p]);
    }
  }

  lemma FreshIsValid(store: SamplingStore, world: World)
    requires Sound(world) && store.state.None? && store.tables == EmptyTables()
    requires store.cachedRows == map[] && store.cachedMetadata == map[]
    ensures store.Valid(world)
  {
  }
}
