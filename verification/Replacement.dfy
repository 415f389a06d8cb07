/** The immediate-start protocol: one queued fallback allocation, at most one trial beside
    it, and the durable facts that name them. */
module Replacement {
  import opened Wrappers

  datatype Job = Job(site: string, id: int)

  datatype JobState = Queued | Running | Finishing | Terminated | Failed | Missing

  /** The states after which an allocation is no longer waited for or cancelled. */
  predicate Over(s: JobState) {
    s.Terminated? || s.Failed? || s.Missing?
  }

  /** `late`: a queued job whose forecast lies beyond the immediate-start window. `distant`:
      one without a forecast, or with one far enough to look for something better. */
  datatype Report = Report(state: JobState, late: bool, distant: bool)

  // ----- What is durable and what is not -----

  datatype Status = Inactive | Trial | Adopted

  /** The replacement part of the run's durable facts. */
  datatype Facts = Facts(current: Job, status: Status, fallback: Job, fallbackCancelled: bool, trial: Job)

  /** What the running process knows of a trial: submitted but not yet recorded, or being
      polled; `running` tells of the last answer, `over` of a cancellation or a final state. */
  datatype Memory = Idle | Unrecorded(job: Job) | Trying(job: Job, running: bool, over: bool)

  /** `owed`: allocations submitted and neither cancelled nor seen over. `lost`: those no
      record ever named, because the run ended before it recorded them or the submission
      raised after the scheduler had accepted it. */
  datatype State = State(facts: Facts, memory: Memory, owed: set<Job>, lost: set<Job>, issued: set<Job>)

  datatype Event =
    | Observed(job: Job, state: JobState)
    | Submitted(job: Job)
    | SubmitRaised(job: Job)           // accepted by the scheduler, reported as an error
    | Recorded(job: Job)
    | Attached(job: Job)
    | Cancelled(job: Job)
    | Cleared(job: Job)
    | TrialAdopted(job: Job)
    | FallbackSettled
    | Requeued

  /** The protocol: what may happen in a state ... */
  ghost predicate Allowed(s: State, e: Event) {
    match e
    case Observed(_, _) => !s.memory.Unrecorded?
    case Submitted(j) => s.memory.Idle? && s.facts.status.Inactive? && j !in s.issued && j.id > 0
    case SubmitRaised(j) => s.memory.Idle? && s.facts.status.Inactive? && j !in s.issued && j.id > 0
    case Recorded(j) => s.memory == Unrecorded(j)
    case Attached(j) => s.memory.Idle? && s.facts.status.Trial? && s.facts.trial == j
    case Cancelled(j) =>
      || (s.memory.Trying? && s.memory.job == j)
      || (s.memory.Idle? && s.facts.status.Adopted? && s.facts.fallback == j && j != s.facts.current)
    case Cleared(j) => s.memory.Trying? && s.memory.job == j && s.memory.over
    case TrialAdopted(j) => s.memory == Trying(j, true, false)
    case FallbackSettled => s.memory.Idle? && s.facts.status.Adopted? && s.facts.fallback !in s.owed
    case Requeued =>
      s.memory.Idle? && s.facts.status.Adopted? && (s.facts.fallbackCancelled || s.facts.fallback == s.facts.current)
  }

  /** ... and what it changes. */
  ghost function Step(s: State, e: Event): State {
    match e
    case Observed(j, st) =>
      var s' := if Over(st) then s.(owed := s.owed - {j}) else s;
      if s.memory.Trying? && s.memory.job == j
      then s'.(memory := Trying(j, st.Running?, s.memory.over || Over(st))) else s'
    case Submitted(j) => s.(memory := Unrecorded(j), owed := s.owed + {j}, issued := s.issued + {j})
    case SubmitRaised(j) => s.(owed := s.owed + {j}, lost := s.lost + {j}, issued := s.issued + {j})
    case Recorded(j) =>
      s.(memory := Trying(j, false, false),
         facts := s.facts.(status := Trial, fallback := s.facts.current, fallbackCancelled := false, trial := j))
    case Attached(j) => s.(memory := Trying(j, false, false))
    case Cancelled(j) =>
      var s' := s.(owed := s.owed - {j});
      if s.memory.Trying? && s.memory.job == j then s'.(memory := s.memory.(over := true)) else s'
    case Cleared(j) => s.(memory := Idle, facts := s.facts.(status := Inactive, trial := j))
    case TrialAdopted(j) =>
      s.(memory := Idle, facts := s.facts.(current := j, status := Adopted, fallbackCancelled := false))
    case FallbackSettled => s.(facts := s.facts.(fallbackCancelled := true))
    case Requeued =>
      s.(facts := s.facts.(status := Inactive, fallback := s.facts.current, fallbackCancelled := false))
  }

  ghost function After(s: State, events: seq<Event>): State {
    if events == [] then s else Step(After(s, events[..|events| - 1]), events[|events| - 1])
  }

  ghost predicate Accepted(s: State, events: seq<Event>) {
    forall i :: 0 <= i < |events| ==> Allowed(After(s, events[..i]), events[i])
  }

  // ----- The invariant -----

  /** The allocations the durable facts name. */
  ghost function Named(f: Facts): set<Job> {
    {f.current} + (if f.status.Trial? then {f.trial} else {})
      + (if f.status.Adopted? && !f.fallbackCancelled then {f.fallback} else {})
  }

  ghost predicate Inv(s: State) {
    && s.owed <= s.issued && Named(s.facts) <= s.issued && (forall j :: j in s.issued ==> j.id > 0)
    && s.lost <= s.issued && (s.memory.Unrecorded? ==> s.memory.job !in s.lost)
    && (s.facts.status.Trial? ==> s.facts.fallback == s.facts.current && s.facts.trial != s.facts.current)
    && match s.memory
       case Idle => s.owed <= Named(s.facts) + s.lost
       case Unrecorded(j) =>
         && s.facts.status.Inactive? && j != s.facts.current && j in s.issued
         && s.owed <= Named(s.facts) + s.lost + {j}
       case Trying(j, _, over) =>
         && s.facts.status.Trial? && s.facts.trial == j
         && s.owed <= Named(s.facts) + s.lost && (over ==> j !in s.owed)
  }

  /** The process dies: what only it knew is gone. */
  ghost function Restart(s: State): State {
    s.(memory := Idle, lost := if s.memory.Unrecorded? then s.lost + {s.memory.job} else s.lost)
  }

  lemma StepKeepsInv(s: State, e: Event)
    requires Inv(s) && Allowed(s, e)
    ensures Inv(Step(s, e))
  {
  }

  lemma RestartKeepsInv(s: State)
    requires Inv(s)
    ensures Inv(Restart(s)) && Restart(s).owed == s.owed && Restart(s).facts == s.facts
    ensures !s.memory.Unrecorded? ==> Restart(s).lost == s.lost
  {
  }

  /** At every moment of an accepted run, so at every possible crash, the facts name every
      allocation that may still be alive, except the lost ones and one submitted and not yet
      recorded. */
  lemma {:induction false} InvAlways(s: State, events: seq<Event>, i: nat)
    requires Inv(s) && Accepted(s, events) && i <= |events|
    ensures Inv(After(s, events[..i]))
  {
    if i > 0 {
      InvAlways(s, events, i - 1);
      assert events[..i][..i - 1] == events[..i - 1];
      StepKeepsInv(After(s, events[..i - 1]), events[i - 1]);
    } else {
      assert events[..0] == [];
    }
  }

  /** Beside the current allocation, at most one may be alive for each loss so far, and one
      more: the pending trial or the open fallback. */
  lemma AtMostOneBeside(s: State)
    requires Inv(s)
    ensures |s.owed - s.lost - {s.facts.current}| <= 1
    ensures |s.owed - {s.facts.current}| <= |s.lost| + 1
  {
    OneBesideLost(s);
    hide Inv;
    var rest := s.owed - s.lost - {s.facts.current};
    SubsetSize(s.owed - {s.facts.current}, s.lost + rest);
    DisjointSize(s.lost, rest);
  }

  lemma DisjointSize(a: set<Job>, b: set<Job>)
    requires a !! b
    ensures |a + b| == |a| + |b|
  {
  }

  lemma OneBesideLost(s: State)
    requires Inv(s)
    ensures |s.owed - s.lost - {s.facts.current}| <= 1
  {
    var rest := s.owed - s.lost - {s.facts.current};
    var other := if s.memory.Unrecorded? then s.memory.job else if s.facts.status.Trial? then s.facts.trial else s.facts.fallback;
    assert rest <= {other};
    assert rest == {} || rest == {other};
  }

  lemma {:induction false} SubsetSize(a: set<Job>, b: set<Job>)
    requires a <= b
    ensures |a| <= |b|
  {
    if a != {} {
      var j :| j in a;
      SubsetSize(a - {j}, b - {j});
    }
  }

  // ----- What an accepted run says -----

  lemma AcceptedOneMore(s: State, events: seq<Event>, e: Event)
    requires Accepted(s, events) && Allowed(After(s, events), e)
    ensures Accepted(s, events + [e]) && After(s, events + [e]) == Step(After(s, events), e)
  {
    var all := events + [e];
    assert all[..|events|] == events;
    forall i | 0 <= i < |all| ensures Allowed(After(s, all[..i]), all[i]) {
      if i < |events| { assert all[..i] == events[..i]; }
    }
  }

  lemma AcceptedPrefix(s: State, events: seq<Event>, n: nat)
    requires Accepted(s, events) && n <= |events|
    ensures Accepted(s, events[..n])
  {
    forall i | 0 <= i < n ensures Allowed(After(s, events[..n][..i]), events[..n][i]) {
      assert events[..n][..i] == events[..i];
    }
  }

  /** While nothing is adopted, the run's own allocation stays the current one. */
  lemma {:induction false} NoAdoption(s: State, events: seq<Event>)
    requires Accepted(s, events) && !s.facts.status.Adopted?
    requires forall i :: 0 <= i < |events| ==> !events[i].TrialAdopted?
    ensures After(s, events).facts.current == s.facts.current && !After(s, events).facts.status.Adopted?
  {
    hide Step, Allowed;
    if events != [] {
      var n := |events| - 1;
      AcceptedPrefix(s, events, n);
      NoAdoption(s, events[..n]);
      NoAdoptionStep(After(s, events[..n]), events[n]);
    }
  }

  lemma NoAdoptionStep(s: State, e: Event)
    requires Allowed(s, e) && !s.facts.status.Adopted? && !e.TrialAdopted?
    ensures Step(s, e).facts.current == s.facts.current && !Step(s, e).facts.status.Adopted?
  {
  }

  /** The fallback is cancelled only after a trial was adopted, and a trial is adopted only
      when the last answer about it was RUNNING. */
  lemma FallbackCancelledLast(s: State, events: seq<Event>, i: nat)
    requires Inv(s) && Accepted(s, events) && !s.facts.status.Adopted? && i < |events|
    requires events[i] == Cancelled(s.facts.current)
    ensures exists a :: 0 <= a < i && events[a].TrialAdopted?
  {
    assert Allowed(After(s, events[..i]), events[i]);
    AcceptedPrefix(s, events, i);
    InvAlways(s, events, i);
    if forall a :: 0 <= a < i ==> !events[a].TrialAdopted? {
      NoAdoption(s, events[..i]);
    }
  }

  /** `o` is the last answer about `j` in `events`, and it was RUNNING. */
  ghost predicate LastSeenRunning(events: seq<Event>, j: Job, o: nat) {
    && o < |events| && events[o] == Observed(j, Running)
    && forall k :: o < k < |events| ==> !(events[k].Observed? && events[k].job == j)
  }

  lemma SeenNow(events: seq<Event>, j: Job)
    requires events != [] && events[|events| - 1] == Observed(j, Running)
    ensures LastSeenRunning(events, j, |events| - 1)
  {
  }

  lemma StillLast(events: seq<Event>, j: Job, o: nat)
    requires events != [] && LastSeenRunning(events[..|events| - 1], j, o)
    requires var e := events[|events| - 1]; !(e.Observed? && e.job == j)
    ensures LastSeenRunning(events, j, o)
  {
    assert forall k :: 0 <= k < |events| - 1 ==> events[..|events| - 1][k] == events[k];
  }

  lemma RunningStep(s: State, e: Event, j: Job)
    requires Allowed(s, e)
    requires Step(s, e).memory.Trying? && Step(s, e).memory.job == j && Step(s, e).memory.running
    ensures e == Observed(j, Running) ||
      (s.memory.Trying? && s.memory.job == j && s.memory.running && !(e.Observed? && e.job == j))
  {
  }

  lemma {:induction false} RunningWasSeen(s: State, events: seq<Event>, j: Job) returns (o: nat)
    requires Accepted(s, events) && !s.memory.Trying?
    requires After(s, events).memory.Trying? && After(s, events).memory.job == j && After(s, events).memory.running
    ensures LastSeenRunning(events, j, o)
  {
    var n := |events| - 1;
    var e := events[n];
    AcceptedPrefix(s, events, n);
    assert Allowed(After(s, events[..n]), e);
    RunningStep(After(s, events[..n]), e, j);
    hide Step, Allowed, LastSeenRunning;
    if e == Observed(j, Running) {
      o := n;
      SeenNow(events, j);
    } else {
      o := RunningWasSeen(s, events[..n], j);
      StillLast(events, j, o);
    }
  }

  lemma AdoptedWhileRunning(s: State, events: seq<Event>, a: nat) returns (o: nat)
    requires Accepted(s, events) && !s.memory.Trying? && a < |events| && events[a].TrialAdopted?
    ensures LastSeenRunning(events[..a], events[a].job, o)
  {
    AcceptedPrefix(s, events, a);
    assert Allowed(After(s, events[..a]), events[a]);
    o := RunningWasSeen(s, events[..a], events[a].job);
  }

  ghost predicate Releases(e: Event, j: Job) {
    e == Cancelled(j) || (e.Observed? && e.job == j && Over(e.state))
  }

  /** The scheduler accepted the allocation, whatever it answered. */
  ghost predicate Reserves(e: Event, j: Job) {
    e == Submitted(j) || e == SubmitRaised(j)
  }

  ghost predicate ReleasedIn(events: seq<Event>, j: Job) {
    exists k :: 0 <= k < |events| && Releases(events[k], j)
  }

  ghost predicate ReservedIn(events: seq<Event>, j: Job) {
    exists k :: 0 <= k < |events| && Reserves(events[k], j)
  }

  /** A reserved allocation stays owed until it is cancelled or seen over. */
  lemma {:induction false} OwedUntilReleased(s: State, events: seq<Event>, j: Job)
    requires (j in s.owed || ReservedIn(events, j)) && !ReleasedIn(events, j)
    ensures j in After(s, events).owed
  {
    if events != [] {
      var n := |events| - 1;
      if j in s.owed || ReservedIn(events[..n], j) {
        OwedUntilReleased(s, events[..n], j);
      }
      assert !Releases(events[n], j);
    }
  }

  // ----- Crashes -----

  /** Executions one after another, each ending anywhere, on the same durable facts. */
  ghost predicate History(s: State, runs: seq<seq<Event>>)
    decreases |runs|
  {
    runs == [] || (Accepted(s, runs[0]) && History(Restart(After(s, runs[0])), runs[1..]))
  }

  ghost function AfterRuns(s: State, runs: seq<seq<Event>>): State
    decreases |runs|
  {
    if runs == [] then s else AfterRuns(Restart(After(s, runs[0])), runs[1..])
  }

  /** The invariant survives every history of crashes. */
  lemma {:induction false} InvOverHistories(s: State, runs: seq<seq<Event>>)
    requires Inv(s) && History(s, runs)
    ensures Inv(AfterRuns(s, runs)) && (s.memory.Idle? ==> AfterRuns(s, runs).memory.Idle?)
    decreases |runs|
  {
    if runs != [] {
      InvAlways(s, runs[0], |runs[0]|);
      assert runs[0][..|runs[0]|] == runs[0];
      RestartKeepsInv(After(s, runs[0]));
      InvOverHistories(Restart(After(s, runs[0])), runs[1..]);
    }
  }

  /** The run leaves `j` unrecorded: its submission raised, or was the run's last event. */
  ghost predicate Loses(run: seq<Event>, j: Job) {
    SubmitRaised(j) in run || (run != [] && run[|run| - 1] == Submitted(j))
  }

  ghost predicate LosesSome(runs: seq<seq<Event>>, j: Job) {
    exists r :: 0 <= r < |runs| && Loses(runs[r], j)
  }

  /** An allocation is lost exactly when its submission raised or the run ended between its
      submission and its record, whatever came before and after. */
  lemma {:induction false} LostExactly(s: State, runs: seq<seq<Event>>, j: Job)
    requires History(s, runs) && s.memory.Idle?
    ensures j in AfterRuns(s, runs).lost <==> j in s.lost || LosesSome(runs, j)
    decreases |runs|
  {
    if runs != [] {
      LostInRun(s, runs[0], j);
      LostExactly(Restart(After(s, runs[0])), runs[1..], j);
      FirstOrLater(runs, (run: seq<Event>) => Loses(run, j));
    }
  }

  /** A submission is recorded by the very next event. */
  lemma RecordedAtOnce(s: State, events: seq<Event>, j: Job)
    requires Accepted(s, events) && s.memory.Idle?
    ensures After(s, events).memory == Unrecorded(j) <==> events != [] && events[|events| - 1] == Submitted(j)
  {
    if events != [] {
      assert Allowed(After(s, events[..|events| - 1]), events[|events| - 1]);
    }
  }

  lemma LostInRun(s: State, events: seq<Event>, j: Job)
    requires Accepted(s, events) && s.memory.Idle?
    ensures j in Restart(After(s, events)).lost <==> j in s.lost || Loses(events, j)
  {
    RecordedAtOnce(s, events, j);
    LostByRaising(s, events, j);
  }

  lemma {:induction false} LostByRaising(s: State, events: seq<Event>, j: Job)
    ensures j in After(s, events).lost <==> j in s.lost || SubmitRaised(j) in events
  {
    if events != [] {
      var n := |events| - 1;
      LostByRaising(s, events[..n], j);
      assert events == events[..n] + [events[n]];
    }
  }

  lemma FirstOrLater(runs: seq<seq<Event>>, p: seq<Event> -> bool)
    requires runs != []
    ensures (exists r :: 0 <= r < |runs| && p(runs[r])) <==> p(runs[0]) || exists r :: 0 <= r < |runs[1..]| && p(runs[1..][r])
  {
    if r :| 0 <= r < |runs| && p(runs[r]) && r > 0 {
      assert runs[1..][r - 1] == runs[r];
    }
  }

  /** Over any history of crashes, every allocation the scheduler ever accepted is named by
      the facts, was cancelled or seen over, or is lost. */
  lemma TrialsAccountedFor(s: State, runs: seq<seq<Event>>, j: Job)
    requires Inv(s) && s.memory.Idle? && History(s, runs)
    requires j in s.owed || exists r :: 0 <= r < |runs| && ReservedIn(runs[r], j)
    ensures
      || j in Named(AfterRuns(s, runs).facts)
      || (exists r :: 0 <= r < |runs| && ReleasedIn(runs[r], j))
      || j in s.lost || LosesSome(runs, j)
  {
    LostExactly(s, runs, j);
    InvOverHistories(s, runs);
    if forall r :: 0 <= r < |runs| ==> !ReleasedIn(runs[r], j) {
      OwedOverHistories(s, runs, j);
    }
  }

  lemma {:induction false} OwedOverHistories(s: State, runs: seq<seq<Event>>, j: Job)
    requires j in s.owed || exists r :: 0 <= r < |runs| && ReservedIn(runs[r], j)
    requires forall r :: 0 <= r < |runs| ==> !ReleasedIn(runs[r], j)
    ensures j in AfterRuns(s, runs).owed
    decreases |runs|
  {
    if runs != [] {
      FirstOrLater(runs, (run: seq<Event>) => ReservedIn(run, j));
      if j in s.owed || ReservedIn(runs[0], j) { OwedUntilReleased(s, runs[0], j); }
      assert forall r :: 0 <= r < |runs[1..]| ==> runs[1..][r] == runs[r + 1];
      OwedOverHistories(Restart(After(s, runs[0])), runs[1..], j);
    }
  }
}
