/** The checkpoint outbox: a producer and one worker thread over durable `pending/` and
    `uploaded/` markers, with crashes between any two steps. */
module CheckpointMirror {
  import opened Wrappers
  import opened Ranking
  import opened Queues
  import opened Sorting

  /** The thread that calls `enqueue` and `start`, between two of its steps. */
  datatype Producer =
    | Ready
    | NotPending(batch: nat)           // enqueue: no pending marker was there
    | NotUploaded(batch: nat)          // ... and no uploaded marker either
    | Recorded(batch: nat)             // the marker is written, not queued yet
    | Scanning(left: seq<nat>)         // start: the markers still to look at

  /** The worker thread, between two of its steps. */
  datatype Worker =
    | NotStarted
    | Waiting
    | Took(batch: nat)                 // taken from the queue
    | Checked(batch: nat)              // its marker was read and matches the files
    | Sent(batch: nat)                 // the upload returned a commit
    | Marked(batch: nat)               // the uploaded marker is written

  /** `pending` and `uploaded` are durable. `recorded` holds every batch whose marker was
      ever written; `failed`, `early` and `stuck` say what this process has seen: attempts
      given up, a batch queued before `start`, a pending marker that would not go away. */
  datatype Mirror = Mirror(
    pending: set<nat>, uploaded: set<nat>, queue: seq<nat>, producer: Producer, worker: Worker,
    recorded: set<nat>, failed: set<nat>, early: bool, stuck: bool)

  datatype Step =
    | Enqueue(batch: nat)
    | TestUploaded
    | RecordFails
    | Record
    | Put
    | Start
    | Scan
    | StartThread
    | Take
    | Check(ok: bool)
    | Upload(ok: bool)
    | MarkUploaded(ok: bool)
    | RemovePending(ok: bool)
    | Crash

  predicate Enabled(m: Mirror, e: Step) {
    match e
    case Enqueue(_) => m.producer.Ready?
    case TestUploaded => m.producer.NotPending?
    case RecordFails => m.producer.NotUploaded?
    case Record => m.producer.NotUploaded?
    case Put => m.producer.Recorded?
    case Start => m.producer.Ready? && m.worker.NotStarted?
    case Scan => m.producer.Scanning? && m.producer.left != []
    case StartThread => m.producer == Scanning([]) && m.worker.NotStarted?
    case Take => m.worker.Waiting? && m.queue != []
    case Check(_) => m.worker.Took?
    case Upload(_) => m.worker.Checked?
    case MarkUploaded(_) => m.worker.Sent?
    case RemovePending(_) => m.worker.Marked?
    case Crash => true
  }

  ghost function Do(m: Mirror, e: Step): Mirror
    requires Enabled(m, e)
  {
    match e
    // `enqueue` looks for a pending marker first, then for an uploaded one.
    case Enqueue(b) => if b in m.pending then m else m.(producer := NotPending(b))
    case TestUploaded =>
      if m.producer.batch in m.uploaded then m.(producer := Ready) else m.(producer := NotUploaded(m.producer.batch))
    case RecordFails => m.(producer := Ready)
    case Record =>
      var b := m.producer.batch;
      m.(pending := m.pending + {b}, recorded := m.recorded + {b}, producer := Recorded(b))
    case Put =>
      m.(queue := m.queue + [m.producer.batch], producer := Ready, early := m.early || m.worker.NotStarted?)
    // `start` queues what an earlier process left, and drops markers already uploaded.
    case Start => m.(producer := Scanning(Listed(m.pending)))
    case Scan =>
      var b, rest := m.producer.left[0], m.producer.left[1..];
      if b in m.uploaded then m.(pending := m.pending - {b}, producer := Scanning(rest))
      else m.(queue := m.queue + [b], producer := Scanning(rest))
    case StartThread => m.(producer := Ready, worker := Waiting)
    case Take => m.(worker := Took(m.queue[0]), queue := m.queue[1..])
    case Check(ok) =>
      var b := m.worker.batch;
      if ok && b in m.pending then m.(worker := Checked(b)) else GivenUp(m, b)
    case Upload(ok) => if ok then m.(worker := Sent(m.worker.batch)) else GivenUp(m, m.worker.batch)
    // The uploaded marker is written before the pending one is removed.
    case MarkUploaded(ok) =>
      var b := m.worker.batch;
      if ok then m.(uploaded := m.uploaded + {b}, worker := Marked(b)) else GivenUp(m, b)
    case RemovePending(ok) =>
      if ok then m.(pending := m.pending - {m.worker.batch}, worker := Waiting)
      else m.(worker := Waiting, stuck := true)
    case Crash => Mirror(m.pending, m.uploaded, [], Ready, NotStarted, m.recorded, {}, false, false)
  }

  function GivenUp(m: Mirror, b: nat): Mirror {
    m.(worker := Waiting, failed := m.failed + {b})
  }

  function ByNumber(): nat -> Key {
    (b: nat) => Key(b, 0, 0)
  }

  /** `sorted(pending.glob(...))`. */
  ghost function Listed(s: set<nat>): (r: seq<nat>)
    ensures forall b :: b in r <==> b in s
    ensures forall i, j :: 0 <= i < j < |r| ==> r[i] < r[j]
  {
    var r := Sort(s, ByNumber());
    assert forall b :: b in r <==> b in Elements(r);
    assert forall i, j :: 0 <= i < j < |r| ==> Less(ByNumber()(r[i]), ByNumber()(r[j]));
    r
  }

  lemma ListedIsSorted(s: set<nat>)
    ensures Distinguishes(ByNumber(), s) && Listed(s) == Sort(s, ByNumber())
  {
  }

  const EMPTY := Mirror({}, {}, [], Ready, NotStarted, {}, {}, false, false)

  ghost function After(m: Mirror, steps: seq<Step>): Mirror
    requires Possible(m, steps)
    decreases |steps|
  {
    if steps == [] then m else After(Do(m, steps[0]), steps[1..])
  }

  ghost predicate Possible(m: Mirror, steps: seq<Step>)
    decreases |steps|
  {
    steps == [] || (Enabled(m, steps[0]) && Possible(Do(m, steps[0]), steps[1..]))
  }

  // ----- The invariant -----

  ghost predicate Holding(w: Worker, b: nat) {
    (w.Took? || w.Checked? || w.Sent?) && w.batch == b
  }

  /** A recorded marker is somewhere, and the producer's tests still hold. */
  ghost predicate MarkersKept(m: Mirror) {
    && m.recorded == m.pending + m.uploaded
    && (m.producer.NotPending? ==> m.producer.batch !in m.pending)
    && (m.producer.NotUploaded? ==> m.producer.batch !in m.recorded)
    && (m.producer.Recorded? ==>
      && m.producer.batch in m.pending && m.producer.batch !in m.uploaded && m.producer.batch !in m.queue
      && (!m.worker.NotStarted? && !m.worker.Waiting? ==> m.worker.batch != m.producer.batch))
    && (forall i :: 0 <= i < |m.queue| ==> m.queue[i] in m.recorded)
    && (!m.worker.NotStarted? && !m.worker.Waiting? ==> m.worker.batch in m.recorded)
    && (m.worker.Checked? || m.worker.Sent? ==> m.worker.batch in m.pending)
    && (m.worker.Marked? ==> m.worker.batch in m.pending && m.worker.batch in m.uploaded)
  }

  /** Unless a marker got stuck: once the worker runs, a batch has both markers only while the
      worker is about to remove the pending one. */
  ghost predicate OneMarker(m: Mirror) {
    !m.worker.NotStarted? ==> forall b :: b in m.pending && b in m.uploaded ==> m.worker == Marked(b)
  }

  /** Unless a batch was queued early: the queue names each waiting batch once. */
  ghost predicate QueuedOnce(m: Mirror) {
    && (forall i :: 0 <= i < |m.queue| ==> m.queue[i] in m.pending && m.queue[i] !in m.uploaded)
    && (forall i, j :: 0 <= i < j < |m.queue| ==> m.queue[i] != m.queue[j])
    && (m.worker.Took? || m.worker.Checked? || m.worker.Sent? || m.worker.Marked? ==> m.worker.batch !in m.queue)
    && (m.worker.Took? || m.worker.Checked? || m.worker.Sent? ==> m.worker.batch !in m.uploaded)
    && (m.worker.NotStarted? && !m.producer.Scanning? ==> m.queue == [])
    && (m.producer.Scanning? ==> forall i :: 0 <= i < |m.producer.left| ==> m.producer.left[i] !in m.queue)
  }

  /** While `start` scans, everything that waits is either still to be scanned or queued. */
  ghost predicate ScanCovers(m: Mirror) {
    m.producer.Scanning? ==>
      && m.worker.NotStarted?
      && (forall i :: 0 <= i < |m.producer.left| ==> m.producer.left[i] in m.pending)
      && (forall i, j :: 0 <= i < j < |m.producer.left| ==> m.producer.left[i] != m.producer.left[j])
      && (forall b :: b in m.pending ==> b in m.producer.left || (b in m.queue && b !in m.uploaded))
  }

  /** No waiting batch is forgotten while the worker runs. */
  ghost predicate Awaited(m: Mirror) {
    !m.worker.NotStarted? ==>
      forall b :: b in m.pending && b !in m.uploaded ==>
        b in m.queue || Holding(m.worker, b) || m.producer == Recorded(b) || b in m.failed
  }

  /** What is queued before the worker starts is still to upload. */
  ghost predicate EarlyWaits(m: Mirror) {
    m.worker.NotStarted? ==> forall i :: 0 <= i < |m.queue| ==> m.queue[i] in m.pending && m.queue[i] !in m.uploaded
  }

  ghost predicate Inv(m: Mirror) {
    && MarkersKept(m) && ScanCovers(m) && Awaited(m) && EarlyWaits(m)
    && (m.stuck || OneMarker(m)) && (m.early || QueuedOnce(m))
  }

  lemma MarkersKeptStep(m: Mirror, e: Step)
    requires MarkersKept(m) && ScanCovers(m) && Enabled(m, e)
    ensures MarkersKept(Do(m, e))
  {
    match e
    case Scan => assert m.producer.left[0] in m.pending;
    case Take => assert forall i :: 0 <= i < |m.queue[1..]| ==> m.queue[1..][i] == m.queue[i + 1];
    case RemovePending(_) => MarkedRemoved(m, e);
    case _ =>
  }

  lemma MarkedRemoved(m: Mirror, e: Step)
    requires MarkersKept(m) && Enabled(m, e) && e.RemovePending?
    ensures MarkersKept(Do(m, e))
  {
  }

  lemma ScanCoversStep(m: Mirror, e: Step)
    requires MarkersKept(m) && ScanCovers(m) && Enabled(m, e)
    ensures ScanCovers(Do(m, e))
  {
  }

  lemma AwaitedStep(m: Mirror, e: Step)
    requires MarkersKept(m) && ScanCovers(m) && Awaited(m) && Enabled(m, e)
    ensures Awaited(Do(m, e))
  {
  }

  lemma EarlyWaitsStep(m: Mirror, e: Step)
    requires MarkersKept(m) && ScanCovers(m) && EarlyWaits(m) && Enabled(m, e)
    ensures EarlyWaits(Do(m, e))
  {
  }

  lemma OneMarkerStep(m: Mirror, e: Step)
    requires MarkersKept(m) && ScanCovers(m) && OneMarker(m) && Enabled(m, e) && e != RemovePending(false)
    ensures OneMarker(Do(m, e))
  {
  }

  lemma QueuedOncePut(m: Mirror)
    requires MarkersKept(m) && QueuedOnce(m) && m.producer.Recorded? && !m.worker.NotStarted?
    ensures QueuedOnce(Do(m, Put))
  {
  }

  lemma QueuedOnceScan(m: Mirror)
    requires ScanCovers(m) && QueuedOnce(m) && Enabled(m, Scan)
    ensures QueuedOnce(Do(m, Scan))
  {
    var m' := Do(m, Scan);
    var b := m.producer.left[0];
    assert forall i :: 0 <= i < |m'.producer.left| ==> m'.producer.left[i] == m.producer.left[i + 1];
    assert b in m.pending && b !in m.queue;
    assert m'.queue == m.queue || (m'.queue == m.queue + [b] && b !in m.uploaded);
  }

  lemma QueuedOnceTake(m: Mirror)
    requires QueuedOnce(m) && Enabled(m, Take)
    ensures QueuedOnce(Do(m, Take))
  {
    assert forall i :: 0 <= i < |m.queue[1..]| ==> m.queue[1..][i] == m.queue[i + 1];
  }

  lemma QueuedOnceOther(m: Mirror, e: Step)
    requires MarkersKept(m) && ScanCovers(m) && QueuedOnce(m) && Enabled(m, e)
    requires !e.Put? && !e.Scan? && !e.Take?
    ensures QueuedOnce(Do(m, e))
  {
    hide MarkersKept, ScanCovers, QueuedOnce, Do;
    if e.Enqueue? || e.TestUploaded? || e.RecordFails? || e.Record? || e.Start? || e.StartThread? {
      QueuedOnceProducer(m, e);
    } else if e.Crash? {
      CrashClears(m);
    } else {
      QueuedOnceWorker(m, e);
    }
  }

  lemma QueuedOnceProducer(m: Mirror, e: Step)
    requires MarkersKept(m) && ScanCovers(m) && QueuedOnce(m) && Enabled(m, e)
    requires e.Enqueue? || e.TestUploaded? || e.RecordFails? || e.Record? || e.Start? || e.StartThread?
    ensures QueuedOnce(Do(m, e))
  {
  }

  lemma QueuedOnceWorker(m: Mirror, e: Step)
    requires MarkersKept(m) && ScanCovers(m) && QueuedOnce(m) && Enabled(m, e)
    requires e.Check? || e.Upload? || e.MarkUploaded? || e.RemovePending?
    ensures QueuedOnce(Do(m, e))
  {
  }

  lemma QueuedOnceStep(m: Mirror, e: Step)
    requires MarkersKept(m) && ScanCovers(m) && QueuedOnce(m) && Enabled(m, e)
    requires !(e.Put? && m.worker.NotStarted?)
    ensures QueuedOnce(Do(m, e))
  {
    hide QueuedOnce, MarkersKept, ScanCovers, Do;
    match e {
      case Put => QueuedOncePut(m);
      case Scan => QueuedOnceScan(m);
      case Take => QueuedOnceTake(m);
      case _ => QueuedOnceOther(m, e);
    }
  }

  lemma InvStep(m: Mirror, e: Step)
    requires Inv(m) && Enabled(m, e)
    ensures Inv(Do(m, e))
  {
    hide QueuedOnce, MarkersKept, ScanCovers, OneMarker, Awaited, EarlyWaits;
    EarlyWaitsStep(m, e);
    MarkersKeptStep(m, e);
    ScanCoversStep(m, e);
    AwaitedStep(m, e);
    if e.Crash? {
      CrashClears(m);
    } else {
      if !m.stuck && e != RemovePending(false) { OneMarkerStep(m, e); }
      if !m.early && !(e.Put? && m.worker.NotStarted?) { QueuedOnceStep(m, e); }
    }
  }

  lemma CrashClears(m: Mirror)
    ensures OneMarker(Do(m, Crash)) && QueuedOnce(Do(m, Crash))
  {
  }

  lemma {:induction false} InvAlways(m: Mirror, steps: seq<Step>)
    requires Inv(m) && Possible(m, steps)
    ensures Inv(After(m, steps))
    decreases |steps|
  {
    if steps != [] {
      InvStep(m, steps[0]);
      InvAlways(Do(m, steps[0]), steps[1..]);
    }
  }

  lemma InitiallyInv()
    ensures Inv(EMPTY)
  {
  }

  // ----- What every run keeps -----

  /** A persisted marker is in `pending` or in `uploaded`, whatever happens. */
  lemma MarkerNeverLost(steps: seq<Step>)
    requires Possible(EMPTY, steps)
    ensures var m := After(EMPTY, steps); m.recorded == m.pending + m.uploaded
  {
    InitiallyInv();
    InvAlways(EMPTY, steps);
  }

  /** No batch's marker is ever written a second time: not while it waits, and not once it
      is uploaded. */
  lemma MarkerNeverRewritten(steps: seq<Step>)
    requires Possible(EMPTY, steps) && Enabled(After(EMPTY, steps), Record)
    ensures After(EMPTY, steps).producer.batch !in After(EMPTY, steps).recorded
  {
    InitiallyInv();
    InvAlways(EMPTY, steps);
  }

  /** While the worker runs, every batch still to upload is queued, in the worker's hands,
      about to be queued, or was given up on for this process. */
  lemma NoLostWakeup(steps: seq<Step>, b: nat)
    requires Possible(EMPTY, steps)
    ensures var m := After(EMPTY, steps);
      !m.worker.NotStarted? && b in m.recorded && b !in m.uploaded ==>
        b in m.queue || Holding(m.worker, b) || m.producer == Recorded(b) || b in m.failed
  {
    InitiallyInv();
    InvAlways(EMPTY, steps);
  }

  // ----- Runs of one process -----

  ghost predicate Reaches(m: Mirror, steps: seq<Step>, m': Mirror) {
    Possible(m, steps) && After(m, steps) == m' && forall i :: 0 <= i < |steps| ==> !steps[i].Crash?
  }

  lemma ReachesFirst(m: Mirror, e: Step, next: Mirror, rest: seq<Step>, m': Mirror)
    requires Enabled(m, e) && Do(m, e) == next && !e.Crash? && Reaches(next, rest, m')
    ensures Reaches(m, [e] + rest, m')
  {
    assert ([e] + rest)[1..] == rest;
  }

  lemma {:induction false} ReachesThen(m: Mirror, a: seq<Step>, middle: Mirror, b: seq<Step>, m': Mirror)
    requires Reaches(m, a, middle) && Reaches(middle, b, m')
    ensures Reaches(m, a + b, m')
    decreases |a|
  {
    if a == [] {
      assert a + b == b;
    } else {
      ReachesRest(m, a, middle);
      ReachesThen(Do(m, a[0]), a[1..], middle, b, m');
      ReachesFirst(m, a[0], Do(m, a[0]), a[1..] + b, m');
      assert a + b == [a[0]] + (a[1..] + b);
    }
  }

  lemma ReachesRest(m: Mirror, steps: seq<Step>, m': Mirror)
    requires Reaches(m, steps, m') && steps != []
    ensures Enabled(m, steps[0]) && !steps[0].Crash? && Reaches(Do(m, steps[0]), steps[1..], m')
  {
  }

  lemma ReachesNone(m: Mirror)
    ensures Reaches(m, [], m)
  {
  }

  lemma InvReached(m: Mirror, steps: seq<Step>, m': Mirror)
    requires Inv(m) && Reaches(m, steps, m')
    ensures Inv(m')
  {
    InvAlways(m, steps);
  }

  // ----- When a batch can be uploaded twice -----

  /** In a process that has called `start`: batch `b` is in one place only, and not uploaded
      while it still has its turn ahead. */
  ghost predicate OneTurn(m: Mirror, b: nat) {
    && (m.worker.NotStarted? ==> m.producer.Scanning?)
    && (forall i, j :: 0 <= i < j < |m.queue| ==> m.queue[i] == b ==> m.queue[j] != b)
    && (b in m.queue ==> b !in m.uploaded && (m.worker.NotStarted? || m.worker.Waiting? || m.worker.batch != b))
    && (m.worker.Took? || m.worker.Checked? || m.worker.Sent? ==> m.worker.batch == b ==> b !in m.uploaded)
    && (m.producer.Scanning? ==> b in m.producer.left ==> b !in m.queue)
  }

  lemma OneTurnAtStart(m: Mirror, b: nat)
    requires Inv(m) && Enabled(m, Start) && b !in m.queue
    ensures OneTurn(Do(m, Start), b)
  {
  }

  lemma OneTurnQueues(m: Mirror, e: Step, b: nat)
    requires MarkersKept(m) && ScanCovers(m) && OneTurn(m, b) && Enabled(m, e) && (e.Put? || e.Scan?)
    ensures OneTurn(Do(m, e), b)
  {
    if e.Scan? {
      var left := m.producer.left;
      assert left == [left[0]] + left[1..];
      assert forall i :: 0 <= i < |left[1..]| ==> left[1..][i] == left[i + 1];
    }
  }

  lemma OneTurnTake(m: Mirror, b: nat)
    requires OneTurn(m, b) && Enabled(m, Take)
    ensures OneTurn(Do(m, Take), b)
  {
    assert m.queue == [m.queue[0]] + m.queue[1..];
    assert forall i :: 0 <= i < |m.queue[1..]| ==> m.queue[1..][i] == m.queue[i + 1];
  }

  lemma OneTurnOther(m: Mirror, e: Step, b: nat)
    requires MarkersKept(m) && ScanCovers(m) && OneTurn(m, b) && Enabled(m, e)
    requires !e.Put? && !e.Scan? && !e.Take? && !e.Crash?
    ensures OneTurn(Do(m, e), b)
  {
  }

  lemma OneTurnStep(m: Mirror, e: Step, b: nat)
    requires Inv(m) && OneTurn(m, b) && Enabled(m, e) && !e.Crash?
    ensures OneTurn(Do(m, e), b)
  {
    hide QueuedOnce, MarkersKept, ScanCovers, OneMarker, Awaited, EarlyWaits, OneTurn, Do;
    match e {
      case Put => OneTurnQueues(m, e, b);
      case Scan => OneTurnQueues(m, e, b);
      case Take => OneTurnTake(m, b);
      case _ => OneTurnOther(m, e, b);
    }
  }

  lemma {:induction false} OneTurnAlways(m: Mirror, steps: seq<Step>, m': Mirror, b: nat)
    requires Inv(m) && OneTurn(m, b) && Reaches(m, steps, m')
    ensures OneTurn(m', b)
    decreases |steps|
  {
    hide Inv, OneTurn;
    if steps != [] {
      ReachesRest(m, steps, m');
      InvStep(m, steps[0]);
      OneTurnStep(m, steps[0], b);
      OneTurnAlways(Do(m, steps[0]), steps[1..], m', b);
    }
  }

  /** In one process, from `start` on, batch `b` is about to be uploaded although it has its
      uploaded marker. */
  ghost predicate Repeats(m: Mirror, steps: seq<Step>, m': Mirror, b: nat) {
    Reaches(m, steps, m') && steps != [] && steps[0] == Start && m'.worker == Checked(b) && b in m'.uploaded
  }

  ghost predicate CanRepeat(m: Mirror, b: nat) {
    exists steps, m' :: Repeats(m, steps, m', b)
  }

  /** No batch that was not queued when `start` was called is ever uploaded again. */
  lemma NeverUploadedAgain(m: Mirror, b: nat)
    requires Inv(m) && Enabled(m, Start) && b !in m.queue
    ensures !CanRepeat(m, b)
  {
    forall steps, m' | Repeats(m, steps, m', b) ensures false {
      ReachesRest(m, steps, m');
      InvStep(m, Start);
      OneTurnAtStart(m, b);
      hide Inv, Reaches;
      OneTurnAlways(Do(m, Start), steps[1..], m', b);
    }
  }

  ghost function Count(queue: seq<nat>, b: nat): nat {
    multiset(queue)[b]
  }

  lemma CountFirst(queue: seq<nat>, b: nat)
    requires queue != []
    ensures Count(queue, b) == Count(queue[1..], b) + if queue[0] == b then 1 else 0
    ensures b in queue <==> Count(queue, b) > 0
    ensures Count(queue[1..], b) > 0 ==> b in queue[1..]
  {
    assert queue == [queue[0]] + queue[1..];
  }

  lemma CountAppend(queue: seq<nat>, a: nat, b: nat)
    ensures Count(queue + [a], b) == Count(queue, b) + if a == b then 1 else 0
  {
  }

  /** The scan queues `b` once more. */
  lemma {:induction false} ScanQueues(m: Mirror, b: nat) returns (steps: seq<Step>, m': Mirror)
    requires m.producer.Scanning? && m.worker.NotStarted? && b in m.pending && b !in m.uploaded
    ensures Reaches(m, steps, m')
    ensures m'.producer == Scanning([]) && m'.worker.NotStarted? && b in m'.pending
    ensures Count(m'.queue, b) >= Count(m.queue, b) + if b in m.producer.left then 1 else 0
    decreases |m.producer.left|
  {
    hide Reaches, Count;
    var left := m.producer.left;
    if left == [] {
      ReachesNone(m);
      steps, m' := [], m;
    } else {
      var next := Do(m, Scan);
      assert left == [left[0]] + left[1..];
      CountAppend(m.queue, left[0], b);
      steps, m' := ScanQueues(next, b);
      ReachesFirst(m, Scan, next, steps, m');
      steps := [Scan] + steps;
    }
  }

  /** The worker gives up on whatever is queued before `b`. */
  lemma {:induction false} SkipTo(m: Mirror, b: nat) returns (steps: seq<Step>, m': Mirror)
    requires m.worker.Waiting? && Count(m.queue, b) > 0
    ensures Reaches(m, steps, m') && m' == m.(queue := m'.queue, failed := m'.failed)
    ensures m'.queue != [] && m'.queue[0] == b && Count(m'.queue, b) == Count(m.queue, b)
    decreases |m.queue|
  {
    hide Reaches;
    assert m.queue != [];
    CountFirst(m.queue, b);
    hide Count;
    if m.queue[0] == b {
      ReachesNone(m);
      steps, m' := [], m;
    } else {
      var took := Do(m, Take);
      var next := Do(took, Check(false));
      steps, m' := SkipTo(next, b);
      ReachesFirst(took, Check(false), next, steps, m');
      ReachesFirst(m, Take, took, [Check(false)] + steps, m');
      steps := [Take] + ([Check(false)] + steps);
    }
  }

  /** The first entry is uploaded, but its pending marker stays. */
  lemma UploadStuck(m: Mirror, b: nat) returns (steps: seq<Step>, m': Mirror)
    requires m.worker.Waiting? && m.queue != [] && m.queue[0] == b && b in m.pending
    ensures Reaches(m, steps, m')
    ensures m' == m.(queue := m.queue[1..], uploaded := m.uploaded + {b}, stuck := true)
  {
    hide Reaches;
    var m1 := m.(worker := Took(b), queue := m.queue[1..]);
    var m2 := m1.(worker := Checked(b));
    var m3 := m2.(worker := Sent(b));
    var m4 := m3.(worker := Marked(b), uploaded := m.uploaded + {b});
    m' := m4.(worker := Waiting, stuck := true);
    steps := [];
    ReachesNone(m');
    ReachesFirst(m4, RemovePending(false), m', steps, m');
    steps := [RemovePending(false)] + steps;
    ReachesFirst(m3, MarkUploaded(true), m4, steps, m');
    steps := [MarkUploaded(true)] + steps;
    ReachesFirst(m2, Upload(true), m3, steps, m');
    steps := [Upload(true)] + steps;
    ReachesFirst(m1, Check(true), m2, steps, m');
    steps := [Check(true)] + steps;
    ReachesFirst(m, Take, m1, steps, m');
    steps := [Take] + steps;
  }

  lemma CheckedAgain(m: Mirror, b: nat) returns (steps: seq<Step>, m': Mirror)
    requires m.worker.Waiting? && m.queue != [] && m.queue[0] == b && b in m.pending
    ensures Reaches(m, steps, m') && m' == m.(queue := m.queue[1..], worker := Checked(b))
  {
    hide Reaches;
    var took := m.(worker := Took(b), queue := m.queue[1..]);
    m' := took.(worker := Checked(b));
    ReachesNone(m');
    ReachesFirst(took, Check(true), m', [], m');
    ReachesFirst(m, Take, took, [Check(true)] + [], m');
    steps := [Take] + ([Check(true)] + []);
  }

  /** Queued twice: the first entry uploads `b`, the second one uploads it again. */
  lemma TwoEntries(m: Mirror, b: nat) returns (steps: seq<Step>, m': Mirror)
    requires m.worker.Waiting? && Count(m.queue, b) >= 2 && b in m.pending
    ensures Reaches(m, steps, m') && m'.worker == Checked(b) && b in m'.uploaded
  {
    hide Reaches, Count;
    var s1, m1 := SkipTo(m, b);
    CountFirst(m1.queue, b);
    var s2, m2 := UploadStuck(m1, b);
    var s3, m3 := SkipTo(m2, b);
    var s4;
    s4, m' := CheckedAgain(m3, b);
    ReachesThen(m2, s3, m3, s4, m');
    ReachesThen(m1, s2, m2, s3 + s4, m');
    ReachesThen(m, s1, m1, s2 + (s3 + s4), m');
    steps := s1 + (s2 + (s3 + s4));
  }

  lemma EarlyIsWaiting(m: Mirror, b: nat)
    requires Inv(m) && Enabled(m, Start) && b in m.queue
    ensures b in m.pending && b !in m.uploaded && Count(m.queue, b) > 0
  {
  }

  /** Every batch queued before `start` can be uploaded twice: `start` queues it again, and
      its pending marker can survive the first upload. */
  lemma UploadedTwice(m: Mirror, b: nat) returns (steps: seq<Step>, m': Mirror)
    requires Inv(m) && Enabled(m, Start) && b in m.queue
    ensures Repeats(m, steps, m', b)
  {
    EarlyIsWaiting(m, b);
    var scanning := Do(m, Start);
    hide Reaches, Listed, Inv, Count;
    var rest;
    rest, m' := ScannedTwice(scanning, b);
    ReachesFirst(m, Start, scanning, rest, m');
    steps := [Start] + rest;
  }

  lemma ScannedTwice(m: Mirror, b: nat) returns (steps: seq<Step>, m': Mirror)
    requires m.producer.Scanning? && m.worker.NotStarted? && b in m.pending && b !in m.uploaded
    requires b in m.producer.left && Count(m.queue, b) > 0
    ensures Reaches(m, steps, m') && m'.worker == Checked(b) && b in m'.uploaded
  {
    hide Reaches, Count;
    var s1, scanned := ScanQueues(m, b);
    var started := scanned.(producer := Ready, worker := Waiting);
    var s2;
    s2, m' := TwoEntries(started, b);
    ReachesFirst(scanned, StartThread, started, s2, m');
    ReachesThen(m, s1, scanned, [StartThread] + s2, m');
    steps := s1 + ([StartThread] + s2);
  }

  /** A batch can be uploaded twice by a process exactly if it is queued when the process
      calls `start`; a process that starts before it queues anything never repeats one. */
  lemma UploadedAgainExactly(m: Mirror, b: nat)
    requires Inv(m) && Enabled(m, Start)
    ensures CanRepeat(m, b) <==> b in m.queue
  {
    hide Inv, Repeats;
    if b in m.queue {
      var steps, m' := UploadedTwice(m, b);
    } else {
      NeverUploadedAgain(m, b);
    }
  }

  /** It does happen: an empty outbox, one batch queued, then `start`. */
  lemma EarlyEnqueueRepeats(b: nat)
    ensures exists m :: Reachable(m) && Enabled(m, Start) && CanRepeat(m, b)
  {
    var steps, m := QueuedEarly(b);
    InitiallyInv();
    InvReached(EMPTY, steps, m);
    assert Reachable(m);
    UploadedAgainExactly(m, b);
  }

  ghost predicate Reachable(m: Mirror) {
    exists steps :: Reaches(EMPTY, steps, m)
  }

  lemma QueuedEarly(b: nat) returns (steps: seq<Step>, m: Mirror)
    ensures Reaches(EMPTY, steps, m)
    ensures m == Mirror({b}, {}, [b], Ready, NotStarted, {b}, {}, true, false)
  {
    hide Reaches;
    var m1 := EMPTY.(producer := NotPending(b));
    var m2 := EMPTY.(producer := NotUploaded(b));
    var m3 := EMPTY.(producer := Producer.Recorded(b), pending := {b}, recorded := {b});
    m := m3.(producer := Ready, queue := [b], early := true);
    steps := [];
    ReachesNone(m);
    ReachesFirst(m3, Put, m, steps, m);
    steps := [Put] + steps;
    ReachesFirst(m2, Record, m3, steps, m);
    steps := [Record] + steps;
    ReachesFirst(m1, TestUploaded, m2, steps, m);
    steps := [TestUploaded] + steps;
    ReachesFirst(EMPTY, Enqueue(b), m1, steps, m);
    steps := [Enqueue(b)] + steps;
  }

  // ----- Recovery -----

  /** `start` queues or drops every marker it found. */
  lemma {:induction false} ScanAll(m: Mirror) returns (steps: seq<Step>, m': Mirror)
    requires Inv(m) && m.producer.Scanning? && !m.early && !m.stuck && m.failed == {}
    ensures Reaches(m, steps, m') && Inv(m') && m'.producer == Scanning([]) && m'.worker.NotStarted?
    ensures !m'.early && !m'.stuck && m'.failed == {} && m'.recorded == m.recorded
    decreases |m.producer.left|
  {
    if m.producer.left == [] {
      ReachesNone(m);
      steps, m' := [], m;
    } else {
      InvStep(m, Scan);
      var next := Do(m, Scan);
      hide Inv, Reaches;
      steps, m' := ScanAll(next);
      ReachesFirst(m, Scan, next, steps, m');
      steps := [Scan] + steps;
    }
  }

  lemma UploadOne(m: Mirror) returns (steps: seq<Step>, m': Mirror)
    requires m.worker.Waiting? && m.queue != [] && m.queue[0] in m.pending
    ensures Reaches(m, steps, m')
    ensures m' == m.(queue := m.queue[1..], pending := m.pending - {m.queue[0]}, uploaded := m.uploaded + {m.queue[0]})
  {
    hide Reaches;
    var b := m.queue[0];
    var m1 := m.(worker := Took(b), queue := m.queue[1..]);
    var m2 := m1.(worker := Checked(b));
    var m3 := m2.(worker := Sent(b));
    var m4 := m3.(worker := Marked(b), uploaded := m.uploaded + {b});
    m' := m4.(worker := Waiting, pending := m.pending - {b});
    steps := [];
    ReachesNone(m');
    ReachesFirst(m4, RemovePending(true), m', steps, m');
    steps := [RemovePending(true)] + steps;
    ReachesFirst(m3, MarkUploaded(true), m4, steps, m');
    steps := [MarkUploaded(true)] + steps;
    ReachesFirst(m2, Upload(true), m3, steps, m');
    steps := [Upload(true)] + steps;
    ReachesFirst(m1, Check(true), m2, steps, m');
    steps := [Check(true)] + steps;
    ReachesFirst(m, Take, m1, steps, m');
    steps := [Take] + steps;
  }

  ghost predicate Done(m: Mirror, recorded: set<nat>) {
    m.pending == {} && m.uploaded == recorded
  }

  lemma NothingLeft(m: Mirror)
    requires Inv(m) && m.worker.Waiting? && m.producer.Ready? && !m.early && !m.stuck && m.failed == {}
    ensures m.queue == [] ==> Done(m, m.recorded)
    ensures m.queue != [] ==> m.queue[0] in m.pending
  {
    if m.queue == [] {
      forall b ensures b !in m.pending {}
    }
  }

  lemma {:induction false} UploadAll(m: Mirror) returns (steps: seq<Step>, m': Mirror)
    requires Inv(m) && m.worker.Waiting? && m.producer.Ready? && !m.early && !m.stuck && m.failed == {}
    ensures Reaches(m, steps, m') && Done(m', m.recorded)
    decreases |m.queue|
  {
    NothingLeft(m);
    hide Inv, Reaches, Done;
    if m.queue == [] {
      ReachesNone(m);
      steps, m' := [], m;
    } else {
      var one, next := UploadOne(m);
      InvReached(m, one, next);
      var rest;
      rest, m' := UploadAll(next);
      ReachesThen(m, one, next, rest, m');
      steps := one + rest;
    }
  }

  /** From every reachable state, a restart whose uploads succeed delivers every recorded
      batch and empties the outbox. */
  lemma RestartDelivers(steps: seq<Step>) returns (more: seq<Step>, m': Mirror)
    requires Possible(EMPTY, steps)
    ensures Reaches(Do(After(EMPTY, steps), Crash), more, m') && Done(m', After(EMPTY, steps).recorded)
  {
    InitiallyInv();
    InvAlways(EMPTY, steps);
    InvStep(After(EMPTY, steps), Crash);
    more, m' := FreshProcessDelivers(Do(After(EMPTY, steps), Crash));
  }

  lemma FreshProcessDelivers(m: Mirror) returns (steps: seq<Step>, m': Mirror)
    requires Inv(m) && Enabled(m, Start) && !m.early && !m.stuck && m.failed == {}
    ensures Reaches(m, steps, m') && Done(m', m.recorded)
  {
    var scanning := Do(m, Start);
    InvStep(m, Start);
    hide Inv, Reaches, Done, Listed;
    var rest;
    rest, m' := ScannedDelivers(scanning);
    ReachesFirst(m, Start, scanning, rest, m');
    steps := [Start] + rest;
  }

  lemma ScannedDelivers(m: Mirror) returns (steps: seq<Step>, m': Mirror)
    requires Inv(m) && m.producer.Scanning? && !m.early && !m.stuck && m.failed == {}
    ensures Reaches(m, steps, m') && Done(m', m.recorded)
  {
    hide Inv, Reaches, Done;
    var s1, scanned := ScanAll(m);
    var started := scanned.(producer := Ready, worker := Waiting);
    InvStep(scanned, StartThread);
    var s2;
    s2, m' := UploadAll(started);
    ReachesFirst(scanned, StartThread, started, s2, m');
    ReachesThen(m, s1, scanned, [StartThread] + s2, m');
    steps := s1 + ([StartThread] + s2);
  }

  // ----- The methods, with the worker running in between -----

  /** The one step the worker can take, given how the outside world answers. */
  function NextStep(m: Mirror, ok: bool): (e: Option<Step>)
    ensures e.Some? ==> Enabled(m, e.value)
  {
    match m.worker
    case NotStarted => None
    case Waiting => if m.queue == [] then None else Some(Take)
    case Took(_) => Some(Check(ok))
    case Checked(_) => Some(Upload(ok))
    case Sent(_) => Some(MarkUploaded(ok))
    case Marked(_) => Some(RemovePending(ok))
  }

  /** How one `enqueue` ended. */
  datatype Enqueued = AlreadyThere | Drift | Queued

  /** After the scan everything pending is queued and not uploaded. */
  lemma ScanEnds(m: Mirror)
    requires Inv(m) && m.producer == Scanning([])
    ensures m.pending == m.recorded - m.uploaded && forall b :: b in m.pending ==> b in m.queue
  {
  }

  lemma RecordedSomewhere(m: Mirror)
    requires Inv(m)
    ensures m.recorded == m.pending + m.uploaded
  {
  }

  class Outbox {
    var pending: set<nat>
    var uploaded: set<nat>
    var queue: seq<nat>
    var worker: Worker
    ghost var m: Mirror

    ghost predicate Valid()
      reads this
    {
      m.pending == pending && m.uploaded == uploaded && m.queue == queue && m.worker == worker && Inv(m)
    }

    /** A process opens the directories an earlier one left. */
    constructor (pending: set<nat>, uploaded: set<nat>, ghost earlier: Mirror)
      requires Inv(earlier) && earlier.pending == pending && earlier.uploaded == uploaded
      ensures Valid() && m == Do(earlier, Crash)
    {
      this.pending, this.uploaded, queue, worker := pending, uploaded, [], NotStarted;
      m := Do(earlier, Crash);
      new;
      InvStep(earlier, Crash);
    }

    ghost method Happens(e: Step)
      requires Inv(m) && Enabled(m, e)
      modifies this`m
      ensures Inv(m) && m == Do(old(m), e)
    {
      InvStep(m, e);
      m := Do(m, e);
    }

    /** One step of `_worker` and `_upload_marker`; `ok` is how the outside world answers. */
    method WorkerStep(ok: bool)
      requires Valid()
      modifies this
      ensures m == if NextStep(old(m), ok).None? then old(m) else Do(old(m), NextStep(old(m), ok).value)
      ensures Valid() && m.producer == old(m.producer) && m.recorded == old(m.recorded)
      ensures old(m.uploaded) <= m.uploaded && (m.worker.NotStarted? <==> old(m.worker.NotStarted?))
    {
      hide Inv;
      match worker
      case NotStarted =>
      case Waiting =>
        if queue != [] {
          Happens(Take);
          worker, queue := Took(queue[0]), queue[1..];
        }
      case Took(b) =>
        Happens(Check(ok));
        worker := if ok && b in pending then Checked(b) else Waiting;
      case Checked(b) =>
        Happens(Upload(ok));
        worker := if ok then Sent(b) else Waiting;
      case Sent(b) =>
        Happens(MarkUploaded(ok));
        if ok { uploaded := uploaded + {b}; }
        worker := if ok then Marked(b) else Waiting;
      case Marked(b) =>
        Happens(RemovePending(ok));
        if ok { pending := pending - {b}; }
        worker := Waiting;
    }

    /** The worker gets some turns. */
    method WorkerTurns()
      requires Valid()
      modifies this
      ensures Valid() && m.producer == old(m.producer) && m.recorded == old(m.recorded)
      ensures old(m.uploaded) <= m.uploaded && (m.worker.NotStarted? <==> old(m.worker.NotStarted?))
    {
      hide Inv, Do;
      var turns: int := *;
      if turns < 0 { turns := 0; }
      for i := 0 to turns
        invariant Valid() && m.producer == old(m.producer) && m.recorded == old(m.recorded)
        invariant old(m.uploaded) <= m.uploaded && (m.worker.NotStarted? <==> old(m.worker.NotStarted?))
      {
        var ok: bool := *;
        WorkerStep(ok);
      }
    }

    /** `enqueue`: a marker is written exactly when none was ever written for this batch. */
    method EnqueueBatch(batch: nat) returns (r: Enqueued)
      requires Valid() && m.producer.Ready?
      modifies this
      ensures Valid() && m.producer.Ready?
      ensures r.AlreadyThere? <==> batch in old(m.recorded)
      ensures m.recorded == if r.Queued? then old(m.recorded) + {batch} else old(m.recorded)
    {
      hide OneMarker, QueuedOnce, ScanCovers, Awaited;
      Happens(Enqueue(batch));
      if batch in pending { return AlreadyThere; }
      WorkerTurns();
      Happens(TestUploaded);
      if batch in uploaded { return AlreadyThere; }
      WorkerTurns();
      var drift: bool := *;
      if drift {
        Happens(RecordFails);
        return Drift;
      }
      RecordAndPut(batch);
      r := Queued;
    }

    /** The marker is written, then queued. */
    method RecordAndPut(batch: nat)
      requires Valid() && m.producer == NotUploaded(batch)
      modifies this
      ensures Valid() && m.producer.Ready? && m.recorded == old(m.recorded) + {batch}
    {
      hide Inv;
      Happens(Record);
      pending := pending + {batch};
      WorkerTurns();
      Happens(Put);
      queue := queue + [batch];
    }

    method Glob() returns (markers: seq<nat>)
      requires Valid() && m.producer.Ready? && worker.NotStarted?
      modifies this`m
      ensures Valid() && m.producer == Scanning(markers) && m.recorded == old(m.recorded)
    {
      hide Inv, Listed;
      ListedIsSorted(pending);
      markers := SortSet(pending, ByNumber());
      Happens(Start);
    }

    method BeginWork()
      requires Valid() && m.producer == Scanning([]) && worker.NotStarted?
      modifies this`m, this`worker
      ensures Valid() && m.producer.Ready? && worker.Waiting? && m.recorded == old(m.recorded)
      ensures pending == m.recorded - uploaded && forall b :: b in pending ==> b in queue
    {
      ScanEnds(m);
      hide Inv;
      Happens(StartThread);
      worker := Waiting;
    }

    /** One marker of the scan: queued, or dropped when it is uploaded already. */
    method ScanMarker(marker: nat, ghost rest: seq<nat>)
      requires Valid() && worker.NotStarted? && m.producer == Scanning([marker] + rest)
      modifies this
      ensures Valid() && worker.NotStarted? && m.producer == Scanning(rest)
      ensures m.recorded == old(m.recorded) && uploaded == old(uploaded)
      ensures queue == if marker in uploaded then old(queue) else old(queue) + [marker]
      ensures pending == if marker in uploaded then old(pending) - {marker} else old(pending)
    {
      hide Inv;
      assert ([marker] + rest)[1..] == rest;
      Happens(Scan);
      if marker in uploaded {
        pending := pending - {marker};
      } else {
        queue := queue + [marker];
      }
    }

    /** `start`: what an earlier process left is queued, then the worker begins. */
    method StartWorker()
      requires Valid() && m.producer.Ready?
      modifies this
      ensures Valid() && m.producer.Ready? && !m.worker.NotStarted?
      ensures m.recorded == old(m.recorded) && uploaded == old(uploaded)
      // Everything still to upload is queued, and nothing uploaded stays pending.
      ensures old(m.worker.NotStarted?) ==> pending == old(pending) - old(uploaded)
      ensures old(m.worker.NotStarted?) ==> forall b :: b in pending ==> b in queue
    {
      hide Inv, Listed, Do, Distinguishes;
      if !worker.NotStarted? { return; }
      RecordedSomewhere(m);
      var markers := Glob();
      for i := 0 to |markers|
        invariant Valid() && worker.NotStarted? && m.producer == Scanning(markers[i..])
        invariant m.recorded == old(m.recorded) && uploaded == old(uploaded)
      {
        assert markers[i..] == [markers[i]] + markers[i + 1..];
        ScanMarker(markers[i], markers[i + 1..]);
      }
      BeginWork();
    }
  }
}
