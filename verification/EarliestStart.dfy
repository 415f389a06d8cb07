/** `earliest_start.py` and `_optimize_queued_start`: replacing a queued allocation by a
    trial that is already running, against a scheduler that answers anything. */
module EarliestStart {
  import opened Wrappers
  import opened Replacement

  // ----- Counting polls -----

  ghost function Polls(events: seq<Event>, j: Job): nat {
    if events == [] then 0 else
      var e := events[|events| - 1];
      Polls(events[..|events| - 1], j) + if e.Observed? && e.job == j then 1 else 0
  }

  lemma {:induction false} PollsConcat(a: seq<Event>, b: seq<Event>, j: Job)
    ensures Polls(a + b, j) == Polls(a, j) + Polls(b, j)
  {
    if b == [] {
      assert a + b == a;
    } else {
      var n := |b| - 1;
      PollsConcat(a, b[..n], j);
      assert (a + b)[..|a + b| - 1] == a + b[..n];
    }
  }

  /** The most polls a deadline `span` ahead allows when the clock keeps up with the sleeps. */
  ghost function Rounds(span: real, pollSeconds: real): nat
    requires pollSeconds > 0.0
  {
    if span <= 0.0 then 2 else
      assert span / pollSeconds >= 0.0;
      (span / pollSeconds).Floor + 2
  }

  lemma RoundsMonotone(a: real, b: real, pollSeconds: real)
    requires pollSeconds > 0.0 && a <= b
    ensures Rounds(a, pollSeconds) <= Rounds(b, pollSeconds)
  {
    if a > 0.0 { assert a / pollSeconds <= b / pollSeconds; }
  }

  /** `n` sleeps that did not reach the deadline leave room for another one. */
  lemma SleepsLeft(n: nat, span: real, pollSeconds: real)
    requires pollSeconds > 0.0 && n as real * pollSeconds < span
    ensures n + 2 <= Rounds(span, pollSeconds)
  {
    var q := span / pollSeconds;
    assert q * pollSeconds == span;
    assert (q - n as real) * pollSeconds > 0.0;
    assert n <= q.Floor;
  }

  // ----- The world of one run -----

  /** The scheduler accepted an allocation. */
  ghost predicate Submits(e: Event) {
    e.Submitted? || e.SubmitRaised?
  }

  ghost predicate NoSubmission(events: seq<Event>) {
    forall e :: e in events ==> !Submits(e)
  }

  /** One sleep: when it began, and for how long it was asked. */
  datatype Nap = Nap(at: real, seconds: real)

  /** Durable facts, the scheduler and the clock, with the ledger of what happened. */
  class Operator {
    var facts: Facts
    var issued: set<Job>
    var clock: real
    ghost const start: State
    ghost var state: State
    ghost var log: seq<Event>
    ghost var naps: seq<Nap>

    /** The log is an accepted run from the start of this process. */
    ghost predicate Valid()
      reads this
    {
      && state.facts == facts && state.issued == issued && Inv(state)
      && Inv(start) && start.memory.Idle? && Accepted(start, log) && state == After(start, log)
    }

    /** A new run over the facts of an earlier one. */
    constructor (facts: Facts, issued: set<Job>, ghost state: State)
      requires Inv(state) && state.facts == facts && state.issued == issued
      ensures Valid() && this.state == start == Restart(state) && log == [] && naps == []
    {
      this.facts, this.issued, clock := facts, issued, 0.0;
      start, this.state, log, naps := Restart(state), Restart(state), [], [];
      new;
      RestartKeepsInv(state);
    }

    ghost method Happens(e: Event)
      requires Inv(state) && Accepted(start, log) && state == After(start, log) && Allowed(state, e)
      modifies this`state, this`log
      ensures Inv(state) && Accepted(start, log) && state == After(start, log)
      ensures state == Step(old(state), e) && log == old(log) + [e]
    {
      StepKeepsInv(state, e);
      AcceptedOneMore(start, log, e);
      state, log := Step(state, e), log + [e];
    }

    method Passes()
      modifies this`clock
      ensures clock >= old(clock)
    {
      var now: real := *;
      if now > clock { clock := now; }
    }

    /** The scheduler's answer about a job, whatever it is. */
    method Ask(job: Job) returns (r: Report)
      requires Valid() && !state.memory.Unrecorded?
      modifies this`clock, this`state, this`log
      ensures Valid() && state == Step(old(state), Observed(job, r.state)) && log == old(log) + [Observed(job, r.state)]
      ensures facts == old(facts) && issued == old(issued) && clock >= old(clock)
    {
      r := *;
      Passes();
      Happens(Observed(job, r.state));
    }

    /** Submit a trial. It may fail, also after the scheduler has accepted it; a scheduler does
        not give out a number twice. `answer` is what the scheduler did, if anything. */
    method Reserve(site: string) returns (r: Option<Job>, ghost answer: Option<Event>)
      requires Valid() && state.memory.Idle? && state.facts.status.Inactive?
      modifies this`clock, this`issued, this`state, this`log
      ensures Valid() && facts == old(facts) && clock >= old(clock)
      ensures answer.None? ==> r.None? && state == old(state) && log == old(log) && issued == old(issued)
      ensures answer.Some? ==>
        && Submits(answer.value) && (answer.value.Submitted? <==> r.Some?)
        && (r.Some? ==> r.value == answer.value.job) && answer.value.job.site == site && answer.value.job !in old(issued)
        && issued == old(issued) + {answer.value.job}
        && state == Step(old(state), answer.value) && log == old(log) + [answer.value]
    {
      Passes();
      var id: int := *;
      if id <= 0 || Job(site, id) in issued { return None, None; }
      issued := issued + {Job(site, id)};
      var raises: bool := *;
      if raises {
        Happens(SubmitRaised(Job(site, id)));
        return None, Some(SubmitRaised(Job(site, id)));
      }
      Happens(Submitted(Job(site, id)));
      return Some(Job(site, id)), Some(Submitted(Job(site, id)));
    }

    method PersistTrial(job: Job)
      requires Valid() && state.memory == Unrecorded(job)
      modifies this`clock, this`facts, this`state, this`log
      ensures Valid() && state == Step(old(state), Recorded(job)) && log == old(log) + [Recorded(job)]
      ensures issued == old(issued) && clock >= old(clock)
    {
      Passes();
      facts := facts.(status := Trial, fallback := facts.current, fallbackCancelled := false, trial := job);
      Happens(Recorded(job));
    }

    method Reattach(job: Job)
      requires Valid() && Allowed(state, Attached(job))
      modifies this`state, this`log
      ensures Valid() && state == Step(old(state), Attached(job)) && log == old(log) + [Attached(job)]
      ensures facts == old(facts) && issued == old(issued) && clock == old(clock)
    {
      Happens(Attached(job));
    }

    method Cancel(job: Job)
      requires Valid() && Allowed(state, Cancelled(job))
      modifies this`clock, this`state, this`log
      ensures Valid() && state == Step(old(state), Cancelled(job)) && log == old(log) + [Cancelled(job)]
      ensures facts == old(facts) && issued == old(issued) && clock >= old(clock)
    {
      Passes();
      Happens(Cancelled(job));
    }

    method ClearTrial(job: Job)
      requires Valid() && Allowed(state, Cleared(job))
      modifies this`clock, this`facts, this`state, this`log
      ensures Valid() && state == Step(old(state), Cleared(job)) && log == old(log) + [Cleared(job)]
      ensures issued == old(issued) && clock >= old(clock)
    {
      Passes();
      facts := facts.(status := Inactive, trial := job);
      Happens(Cleared(job));
    }

    method AdoptTrial(job: Job)
      requires Valid() && Allowed(state, TrialAdopted(job))
      modifies this`clock, this`facts, this`state, this`log
      ensures Valid() && state == Step(old(state), TrialAdopted(job)) && log == old(log) + [TrialAdopted(job)]
      ensures issued == old(issued) && clock >= old(clock)
    {
      Passes();
      facts := facts.(current := job, status := Adopted, fallbackCancelled := false);
      Happens(TrialAdopted(job));
    }

    method SettleFallback()
      requires Valid() && Allowed(state, FallbackSettled)
      modifies this`clock, this`facts, this`state, this`log
      ensures Valid() && state == Step(old(state), FallbackSettled) && log == old(log) + [FallbackSettled]
      ensures issued == old(issued) && clock >= old(clock)
    {
      Passes();
      facts := facts.(fallbackCancelled := true);
      Happens(FallbackSettled);
    }

    method Requeue()
      requires Valid() && Allowed(state, Event.Requeued)
      modifies this`clock, this`facts, this`state, this`log
      ensures Valid() && state == Step(old(state), Event.Requeued) && log == old(log) + [Event.Requeued]
      ensures issued == old(issued) && clock >= old(clock)
    {
      Passes();
      facts := facts.(status := Inactive, fallback := facts.current, fallbackCancelled := false);
      Happens(Event.Requeued);
    }

    /** Sleeping takes at least as long as asked for. */
    method Sleep(seconds: real)
      modifies this`clock, this`naps
      ensures clock >= old(clock) + seconds && naps == old(naps) + [Nap(old(clock), seconds)]
    {
      naps := naps + [Nap(clock, seconds)];
      clock := clock + seconds;
      Passes();
    }
  }

  // ----- One trial -----

  datatype Verdict = FallbackRan | TrialRan | GaveUp

  /** The run is back to one allocation and no pending trial. */
  ghost predicate Settled(s: State, current: Job) {
    s.memory.Idle? && s.facts.status.Inactive? && s.facts.current == current
  }

  ghost predicate Replaced(s: State, fallback: Job, current: Job) {
    s.memory.Idle? && s.facts.status.Adopted? && s.facts.current == current
      && s.facts.fallback == fallback && fallback != current && fallback !in s.owed
  }

  /** Drop the trial: it is cancelled unless it is already over. */
  method DropTrial(op: Operator, job: Job, cancel: bool) returns (ghost events: seq<Event>)
    requires op.Valid() && op.state.memory.Trying? && op.state.memory.job == job && (cancel || op.state.memory.over)
    modifies op`clock, op`facts, op`state, op`log
    ensures op.Valid() && op.clock >= old(op.clock) && op.issued == old(op.issued)
    ensures Settled(op.state, old(op.facts.current)) && op.log == old(op.log) + events
    ensures NoSubmission(events) && NoAnswers(events) && forall j :: Cancelled(j) in events <==> cancel && j == job
  {
    hide Inv, Accepted, After;
    if cancel { op.Cancel(job); }
    op.ClearTrial(job);
    events := if cancel then [Cancelled(job), Cleared(job)] else [Cleared(job)];
  }

  /** Answers that end a trial: it is over, or queued beyond the immediate-start window. */
  ghost predicate Dismissed(r: Report) {
    r.state in {Terminated, Failed, Missing} || (r.state == Queued && r.late)
  }

  /** The last answer about `j` among the events. */
  ghost predicate LastAnswer(events: seq<Event>, j: Job, st: JobState) {
    exists o: nat :: AnswerAt(events, j, st, o)
  }

  ghost predicate AnswerAt(events: seq<Event>, j: Job, st: JobState, o: nat) {
    && o < |events| && events[o] == Observed(j, st)
    && forall k :: o < k < |events| ==> !(events[k].Observed? && events[k].job == j)
  }

  lemma LastOfRound(fallback: Job, a: JobState, job: Job, st: JobState, rest: seq<Event>)
    requires NoAnswers(rest)
    ensures LastAnswer([Observed(fallback, a)] + [Observed(job, st)] + rest, job, st)
  {
    var events := [Observed(fallback, a)] + [Observed(job, st)] + rest;
    forall k | 1 < k < |events| ensures !events[k].Observed? {
      assert events[k] == rest[k - 2];
    }
    assert AnswerAt(events, job, st, 1);
  }

  lemma LastLater(a: seq<Event>, b: seq<Event>, j: Job, st: JobState)
    ensures LastAnswer(b, j, st) ==> LastAnswer(a + b, j, st)
  {
    if LastAnswer(b, j, st) {
      var o: nat :| AnswerAt(b, j, st, o);
      forall k | |a| + o < k < |a + b| ensures !((a + b)[k].Observed? && (a + b)[k].job == j) {
        assert (a + b)[k] == b[k - |a|];
      }
      assert AnswerAt(a + b, j, st, |a| + o);
    }
  }

  /** A queued trial predicted beyond the immediate-start window. */
  predicate OutOfWindow(r: Report) {
    r.state.Queued? && r.late
  }

  ghost predicate NoAnswers(events: seq<Event>) {
    forall i :: 0 <= i < |events| ==> !events[i].Observed?
  }

  lemma {:induction false} NoAnswersNoPolls(events: seq<Event>, j: Job)
    requires NoAnswers(events)
    ensures Polls(events, j) == 0
  {
    if events != [] { NoAnswersNoPolls(events[..|events| - 1], j); }
  }

  lemma RoundPolls(fallback: Job, job: Job, a: JobState, b: JobState, tail: seq<Event>, j: Job)
    requires fallback != job && NoAnswers(tail)
    ensures Polls([Observed(fallback, a)] + tail, j) == if j == fallback then 1 else 0
    ensures Polls([Observed(fallback, a)] + [Observed(job, b)] + tail, j) == if j in {fallback, job} then 1 else 0
  {
    NoAnswersNoPolls(tail, j);
    PollsConcat([Observed(fallback, a)], tail, j);
    PollsConcat([Observed(fallback, a)] + [Observed(job, b)], tail, j);
    PollsConcat([Observed(fallback, a)], [Observed(job, b)], j);
    SinglePoll(Observed(fallback, a), j);
    SinglePoll(Observed(job, b), j);
  }

  lemma SinglePoll(e: Event, j: Job)
    ensures Polls([e], j) == if e.Observed? && e.job == j then 1 else 0
  {
    assert [e][..0] == [];
  }

  lemma InRound(a: Event, b: Event, rest: seq<Event>, e: Event)
    ensures e in [a] + [b] + rest <==> e == a || e == b || e in rest
    ensures e in [a] + rest <==> e == a || e in rest
  {
    var all := [a] + [b] + rest;
    if e in rest {
      var i :| 0 <= i < |rest| && rest[i] == e;
      assert all[i + 2] == e && ([a] + rest)[i + 1] == e;
    }
    assert all[0] == a && all[1] == b && ([a] + rest)[0] == a;
  }

  /** Ask about the trial and act on the answer; `rest` is what follows the answer. */
  method AskTrial(op: Operator, fallback: Job, job: Job, deadline: real)
    returns (verdict: Option<Verdict>, ghost seen: Report, ghost rest: seq<Event>)
    requires op.Valid() && op.state.memory == Trying(job, false, false) && fallback == op.facts.current
    modifies op`clock, op`facts, op`state, op`log
    ensures op.Valid() && op.clock >= old(op.clock) && op.issued == old(op.issued)
    ensures op.log == old(op.log) + ([Observed(job, seen.state)] + rest) && NoAnswers(rest) && NoSubmission(rest)
    ensures verdict != Some(FallbackRan)
    ensures verdict.None? ==>
      && op.state.memory == Trying(job, false, false) && op.facts == old(op.facts) && op.clock < deadline
      && rest == [] && !Dismissed(seen)
    ensures verdict == Some(TrialRan) <==> seen.state.Running?
    ensures verdict == Some(TrialRan) ==> Replaced(op.state, fallback, job)
    ensures verdict == Some(GaveUp) ==>
      Settled(op.state, fallback) && (Dismissed(seen) || op.clock >= deadline)
    ensures Cancelled(job) in rest <==> verdict == Some(GaveUp) && !Over(seen.state)
    ensures Cancelled(fallback) in rest <==> verdict == Some(TrialRan)
  {
    hide Inv, Accepted, After;
    TrialIsNotFallback(op.state);
    var observed := op.Ask(job);
    seen, rest := observed, [];
    if observed.state.Running? {
      op.AdoptTrial(job);
      op.Cancel(fallback);
      rest := [TrialAdopted(job), Cancelled(fallback)];
      verdict := Some(TrialRan);
      return;
    }
    op.Passes();
    if OutOfWindow(observed) || Over(observed.state) || op.clock >= deadline {
      rest := DropTrial(op, job, !Over(observed.state));
      verdict := Some(GaveUp);
      return;
    }
    verdict := None;
  }

  /** One turn of the inner loop: ask about the fallback, then about the trial. The answers
      decide: a running fallback keeps it, a running trial takes over, and polling goes on only
      for a trial that is alive, inside its window and before its deadline. */
  method PollOnce(op: Operator, fallback: Job, job: Job, deadline: real)
    returns (verdict: Option<Verdict>, ghost events: seq<Event>, ghost first: Report, ghost seen: Report)
    requires op.Valid() && op.state.memory == Trying(job, false, false) && fallback == op.facts.current
    modifies op`clock, op`facts, op`state, op`log
    ensures events != [] && events[0] == Observed(fallback, first.state)
    ensures !first.state.Running? ==> |events| > 1 && events[1] == Observed(job, seen.state)
    ensures verdict == Some(FallbackRan) <==> first.state.Running?
    ensures verdict == Some(TrialRan) <==> !first.state.Running? && seen.state.Running?
    ensures verdict == Some(GaveUp) ==> Dismissed(seen) || op.clock >= deadline
    ensures verdict.None? ==> !Dismissed(seen)
    ensures verdict.Some? && !verdict.value.FallbackRan? ==> LastAnswer(events, job, seen.state)
    ensures Cancelled(job) in events <==>
      verdict == Some(FallbackRan) || (verdict == Some(GaveUp) && !Over(seen.state))
    ensures op.Valid() && op.clock >= old(op.clock) && op.issued == old(op.issued)
    ensures op.log == old(op.log) + events
    ensures verdict.None? ==>
      && op.state.memory == Trying(job, false, false) && op.facts == old(op.facts) && op.clock < deadline
    ensures verdict == Some(TrialRan) ==> Replaced(op.state, fallback, job)
    ensures verdict.Some? && !verdict.value.TrialRan? ==> Settled(op.state, fallback)
    ensures Polls(events, job) <= 1 && (verdict.None? ==> Polls(events, job) == 1)
    ensures forall j :: j !in {fallback, job} ==> Polls(events, j) == 0
    ensures NoSubmission(events) && (verdict == Some(TrialRan) <==> Cancelled(fallback) in events)
  {
    hide Inv, Accepted, After, Polls, Replaced, Settled, LastAnswer;
    TrialIsNotFallback(op.state);
    var fallbackObserved := op.Ask(fallback);
    first, seen := fallbackObserved, fallbackObserved;
    events := [Observed(fallback, first.state)];
    ghost var rest;
    if fallbackObserved.state.Running? {
      rest := DropTrial(op, job, true);
      events := events + rest;
      forall j { RoundPolls(fallback, job, first.state, Queued, rest, j); }
      forall e { InRound(Observed(fallback, first.state), Observed(fallback, first.state), rest, e); }
      verdict := Some(FallbackRan);
      return;
    }
    verdict, seen, rest := AskTrial(op, fallback, job, deadline);
    forall j { RoundPolls(fallback, job, first.state, seen.state, rest, j); }
    forall e { InRound(Observed(fallback, first.state), Observed(job, seen.state), rest, e); }
    LastOfRound(fallback, first.state, job, seen.state, rest);
    events := events + [Observed(job, seen.state)] + rest;
  }

  /** The inner loop. */
  method PollTrial(op: Operator, fallback: Job, job: Job, deadline: real, pollSeconds: real)
    returns (verdict: Verdict, ghost events: seq<Event>, ghost last: Report)
    requires op.Valid() && op.state.memory == Trying(job, false, false) && fallback == op.facts.current
    requires pollSeconds > 0.0
    modifies op
    ensures op.Valid() && op.clock >= old(op.clock) && op.issued == old(op.issued)
    ensures op.log == old(op.log) + events
    ensures if verdict.TrialRan? then Replaced(op.state, fallback, job) else Settled(op.state, fallback)
    ensures Polls(events, job) <= Rounds(deadline - old(op.clock), pollSeconds)
    ensures forall j :: j !in {fallback, job} ==> Polls(events, j) == 0
    ensures NoSubmission(events) && (verdict.TrialRan? <==> Cancelled(fallback) in events)
    ensures verdict.FallbackRan? ==> Observed(fallback, Running) in events
    // A trial is not given up before its deadline unless its last answer ends it ...
    ensures verdict.GaveUp? ==> Dismissed(last) || op.clock >= deadline
    ensures !verdict.FallbackRan? ==> LastAnswer(events, job, last.state)
    // ... and every sleep lasts a poll interval, or what is left until the deadline.
    ensures NapsUntil(old(op.naps), op.naps, pollSeconds, deadline)
  {
    hide Inv, Accepted, After, Allowed, Rounds, Polls, Replaced, Settled, LastAnswer, Dismissed;
    ghost var begun, span := op.clock, deadline - op.clock;
    ghost var n := 0;
    events := [];
    NoPolls();
    RoundsAtLeast(span, pollSeconds);
    while true
      invariant op.Valid() && op.state.memory == Trying(job, false, false) && op.facts == old(op.facts)
      invariant op.issued == old(op.issued) && op.log == old(op.log) + events
      invariant Polls(events, job) == n && forall j :: j !in {fallback, job} ==> Polls(events, j) == 0
      invariant op.clock >= begun && (op.clock >= deadline || op.clock >= begun + n as real * pollSeconds)
      invariant n + 1 <= Rounds(span, pollSeconds) && Cancelled(fallback) !in events && NoSubmission(events)
      invariant NapsUntil(old(op.naps), op.naps, pollSeconds, deadline)
      decreases Rounds(span, pollSeconds) - n
    {
      ghost var once;
      var ended;
      ghost var first, seen;
      ended, once, first, seen := PollOnce(op, fallback, job, deadline);
      PollsJoin(events, once);
      LastLater(events, once, job, seen.state);
      events := events + once;
      if ended.Some? { return ended.value, events, seen; }
      SleepsLeft(n, span, pollSeconds);
      var remaining := deadline - op.clock;
      n := n + 1;
      op.Sleep(if pollSeconds <= remaining then pollSeconds else remaining);
    }
  }

  ghost predicate NapsUntil(before: seq<Nap>, after: seq<Nap>, pollSeconds: real, deadline: real) {
    && |before| <= |after| && after[..|before|] == before
    && forall i :: |before| <= i < |after| ==>
      var left := deadline - after[i].at;
      left > 0.0 && after[i].seconds == if pollSeconds <= left then pollSeconds else left
  }

  lemma NoPolls()
    ensures forall j :: Polls([], j) == 0
  {
  }

  lemma PollsJoin(a: seq<Event>, b: seq<Event>)
    ensures forall j :: Polls(a + b, j) == Polls(a, j) + Polls(b, j)
    ensures forall e :: e in a + b <==> e in a || e in b
  {
    forall j ensures Polls(a + b, j) == Polls(a, j) + Polls(b, j) { PollsConcat(a, b, j); }
  }

  lemma RoundsAtLeast(span: real, pollSeconds: real)
    requires pollSeconds > 0.0
    ensures Rounds(span, pollSeconds) >= 2
  {
  }

  lemma TrialIsNotFallback(s: State)
    requires Inv(s) && s.memory.Trying?
    ensures s.facts.status.Trial? && s.facts.trial == s.memory.job != s.facts.current == s.facts.fallback
  {
  }

  // ----- attempt_immediate_replacement -----

  /** The allocation to monitor. */
  datatype Outcome = Outcome(job: Job, replaced: bool)

  method Perhaps() returns (b: bool) {
    b := *;
  }

  ghost predicate OnlyNewPolled(events: seq<Event>, fallback: Job, before: set<Job>, after: set<Job>, bound: nat) {
    forall j :: j != fallback && Polls(events, j) > 0 ==> j !in before && j in after && Polls(events, j) <= bound
  }

  lemma {:induction false} ElsewherePolls(events: seq<Event>, fallback: Job, j: Job)
    requires j != fallback && forall i :: 0 <= i < |events| ==> events[i].Observed? ==> events[i].job == fallback
    ensures Polls(events, j) == 0
  {
    if events != [] { ElsewherePolls(events[..|events| - 1], fallback, j); }
  }

  /** Nothing, or the fallback's answer, or that it is queued and one submission. */
  ghost predicate SubmissionEvents(events: seq<Event>, job: Option<Job>, fallback: Job, site: string) {
    match job
    case Some(j) => j.site == site && events == [Observed(fallback, Queued), Submitted(j)]
    case None =>
      || events == []
      || (exists st :: events == [Observed(fallback, st)])
      || (exists id :: events == [Observed(fallback, Queued), SubmitRaised(Job(site, id))])
  }

  /** `prepare` and `submit`: nothing is submitted unless the fallback is still queued. */
  method SubmitTrial(op: Operator, fallback: Job, site: string)
    returns (job: Option<Job>, ghost events: seq<Event>)
    requires op.Valid() && Settled(op.state, fallback)
    modifies op`clock, op`issued, op`state, op`log
    ensures op.Valid() && op.clock >= old(op.clock) && op.log == old(op.log) + events && old(op.issued) <= op.issued
    ensures job.None? ==> Settled(op.state, fallback)
    ensures job.Some? ==>
      && op.state.memory == Unrecorded(job.value) && op.facts == old(op.facts)
      && job.value !in old(op.issued) && op.issued == old(op.issued) + {job.value}
    ensures SubmissionEvents(events, job, fallback, site)
  {
    hide Inv, Accepted, After;
    var prepareRaises := Perhaps();
    if prepareRaises { return None, []; }
    var current := op.Ask(fallback);
    events := [Observed(fallback, current.state)];
    if !current.state.Queued? { return None, events; }
    ghost var answer;
    job, answer := op.Reserve(site);
    if answer.Some? {
      events := [Observed(fallback, Queued), answer.value];
      assert job.None? ==> answer.value == SubmitRaised(Job(site, answer.value.job.id));
    }
  }

  /** The events of one candidate: the fallback is asked about first, and again right before
      the one submission, on the candidate's site, that may follow. */
  ghost predicate Tries(events: seq<Event>, fallback: Job, site: string) {
    && events != [] && events[0].Observed? && events[0].job == fallback
    && forall i :: 0 <= i < |events| && Submits(events[i]) ==>
      i == 2 && events[1] == Observed(fallback, Queued) && events[i].job.site == site
  }

  /** A submitted trial is recorded, then polled until its deadline. */
  method RecordAndPoll(op: Operator, fallback: Job, job: Job, trialSeconds: real, pollSeconds: real)
    returns (verdict: Verdict, ghost polled: seq<Event>, ghost last: Report)
    requires op.Valid() && op.state.memory == Unrecorded(job) && fallback == op.facts.current
    requires trialSeconds > 0.0 && pollSeconds > 0.0
    modifies op
    ensures op.Valid() && op.clock >= old(op.clock) && op.issued == old(op.issued)
    ensures op.log == old(op.log) + [Recorded(job)] + polled
    ensures if verdict.TrialRan? then Replaced(op.state, fallback, job) else Settled(op.state, fallback)
    ensures Polls(polled, job) <= Rounds(trialSeconds, pollSeconds)
    ensures forall j :: j !in {fallback, job} ==> Polls(polled, j) == 0
    ensures NoSubmission(polled) && (verdict.TrialRan? <==> Cancelled(fallback) in polled)
    ensures verdict.FallbackRan? ==> Observed(fallback, Running) in polled
    // The trial has `trialSeconds` to start, unless its last answer ends it.
    ensures verdict.GaveUp? ==> Dismissed(last) || op.clock >= old(op.clock) + trialSeconds
    ensures !verdict.FallbackRan? ==> LastAnswer(polled, job, last.state)
    ensures NapsOf(old(op.naps), op.naps, pollSeconds)
  {
    hide Inv, Accepted, After, Rounds, Polls, Replaced, Settled, NoSubmission, LastAnswer, Dismissed;
    op.Passes();
    var deadline := op.clock + trialSeconds;
    op.PersistTrial(job);
    RoundsMonotone(deadline - op.clock, trialSeconds, pollSeconds);
    verdict, polled, last := PollTrial(op, fallback, job, deadline, pollSeconds);
  }

  /** No sleep is longer than a poll interval. */
  ghost predicate NapsOf(before: seq<Nap>, after: seq<Nap>, pollSeconds: real) {
    && |before| <= |after| && after[..|before|] == before
    && forall i :: |before| <= i < |after| ==> 0.0 < after[i].seconds <= pollSeconds
  }

  /** One trial, or one candidate that came to none: its events, how it ended, the last answer
      about the job, and when it began and ended. */
  datatype Try = Try(
    events: seq<Event>, verdict: Option<Verdict>, job: Job, last: Report, began: real, ended: real)

  /** A trial given up had its time, unless its last answer ended it. */
  ghost predicate HadItsTime(t: Try, due: real) {
    t.verdict == Some(GaveUp) ==>
      LastAnswer(t.events, t.job, t.last.state) && (Dismissed(t.last) || t.ended >= due)
  }

  /** A candidate got its chance: only one that was not submitted has no verdict, and the
      submitted one has `trialSeconds`. */
  ghost predicate FairTry(t: Try, fallback: Job, site: string, trialSeconds: real) {
    && Tries(t.events, fallback, site) && t.began <= t.ended && HadItsTime(t, t.began + trialSeconds)
    && (t.verdict.None? ==> forall j :: Submitted(j) !in t.events)
    && (t.verdict.Some? && !t.verdict.value.FallbackRan? ==> Submitted(t.job) in t.events)
  }

  /** One candidate: nothing may be pending before it, and nothing is after it. */
  method TryCandidate(op: Operator, fallback: Job, site: string, trialSeconds: real, pollSeconds: real)
    returns (verdict: Option<Verdict>, job: Job, ghost t: Try)
    requires op.Valid() && Settled(op.state, fallback) && trialSeconds > 0.0 && pollSeconds > 0.0
    modifies op
    ensures op.Valid() && op.clock >= old(op.clock) && old(op.issued) <= op.issued
    ensures op.log == old(op.log) + t.events && t.verdict == verdict && t.job == job
    ensures t.began == old(op.clock) && t.ended == op.clock
    ensures if verdict == Some(TrialRan) then Replaced(op.state, fallback, job) else Settled(op.state, fallback)
    ensures OnlyNewPolled(t.events, fallback, old(op.issued), op.issued, Rounds(trialSeconds, pollSeconds))
    ensures verdict == Some(TrialRan) <==> Cancelled(fallback) in t.events
    ensures FairTry(t, fallback, site, trialSeconds)
    ensures verdict == Some(FallbackRan) ==> Observed(fallback, Running) in t.events
    ensures NapsOf(old(op.naps), op.naps, pollSeconds)
  {
    hide Inv, Accepted, After, Rounds, Polls, Replaced, Settled, Tries, NoSubmission, LastAnswer, Dismissed;
    ghost var began := op.clock;
    ghost var opening;
    var ran, submitted;
    ran, submitted, opening := OpenCandidate(op, fallback, site);
    job := fallback;
    if ran {
      t := Try(opening, Some(FallbackRan), fallback, Report(Running, false, false), began, op.clock);
      return Some(FallbackRan), fallback, t;
    }
    if submitted.None? {
      t := Try(opening, None, fallback, Report(Queued, false, false), began, op.clock);
      return None, fallback, t;
    }
    job := submitted.value;
    ghost var polled, last;
    var v;
    v, polled, last := RecordAndPoll(op, fallback, job, trialSeconds, pollSeconds);
    PolledTries(opening, Recorded(job), polled, fallback, site, job);
    PolledLast(opening, Recorded(job), polled, job, last.state);
    t := Try(opening + ([Recorded(job)] + polled), Some(v), job, last, began, op.clock);
    verdict := Some(v);
  }

  lemma PolledLast(a: seq<Event>, e: Event, b: seq<Event>, job: Job, st: JobState)
    ensures LastAnswer(b, job, st) ==> LastAnswer(a + ([e] + b), job, st)
  {
    LastLater([e], b, job, st);
    LastLater(a, [e] + b, job, st);
  }

  /** The fallback is asked about, then a trial submitted if that is still wanted. */
  method OpenCandidate(op: Operator, fallback: Job, site: string)
    returns (ran: bool, job: Option<Job>, ghost events: seq<Event>)
    requires op.Valid() && Settled(op.state, fallback)
    modifies op`clock, op`issued, op`state, op`log
    ensures op.Valid() && op.clock >= old(op.clock) && op.log == old(op.log) + events && old(op.issued) <= op.issued
    ensures Opens(events, job, fallback, site) && (events[0].state.Running? <==> ran)
    ensures ran ==> events == [Observed(fallback, Running)] && job.None?
    ensures job.None? ==> Settled(op.state, fallback)
    ensures job.Some? ==>
      && op.state.memory == Unrecorded(job.value) && fallback == op.facts.current
      && job.value !in old(op.issued) && job.value in op.issued
  {
    hide Inv, Accepted, After, Polls, SubmissionEvents;
    var before := op.Ask(fallback);
    events := [Observed(fallback, before.state)];
    ran, job := before.state.Running?, None;
    NothingSubmitted(fallback, site);
    SubmissionOpens(fallback, before.state, [], None, site);
    if !ran {
      ghost var more;
      job, more := SubmitTrial(op, fallback, site);
      SubmissionOpens(fallback, before.state, more, job, site);
      events := events + more;
    }
  }

  lemma NothingSubmitted(fallback: Job, site: string)
    ensures SubmissionEvents([], None, fallback, site)
  {
  }

  /** A candidate's events up to its submission. */
  ghost predicate Opens(events: seq<Event>, job: Option<Job>, fallback: Job, site: string) {
    && Tries(events, fallback, site) && Cancelled(fallback) !in events
    && (forall j :: j != fallback ==> Polls(events, j) == 0)
    && (if job.Some? then Submitted(job.value) in events else forall j :: Submitted(j) !in events)
  }

  lemma SubmissionOpens(fallback: Job, st: JobState, more: seq<Event>, job: Option<Job>, site: string)
    requires SubmissionEvents(more, job, fallback, site)
    ensures Opens([Observed(fallback, st)] + more, job, fallback, site)
    ensures more == [] ==> [Observed(fallback, st)] + more == [Observed(fallback, st)]
  {
    var events := [Observed(fallback, st)] + more;
    if job.Some? { assert events[2] == Submitted(job.value); }
    QuietFor(fallback, events);
  }

  lemma PolledTries(a: seq<Event>, e: Event, b: seq<Event>, fallback: Job, site: string, job: Job)
    requires Opens(a, Some(job), fallback, site) && e == Recorded(job) && NoSubmission(b)
    requires forall j :: j !in {fallback, job} ==> Polls(b, j) == 0
    ensures var all := a + ([e] + b);
      && Tries(all, fallback, site) && all[0] == a[0] && Submitted(job) in all
      && (Cancelled(fallback) in all <==> Cancelled(fallback) in b)
      && (Observed(fallback, Running) in b ==> Observed(fallback, Running) in all)
      && forall j :: j != fallback && Polls(all, j) > 0 ==> j == job && Polls(all, j) == Polls(b, j)
  {
    hide Polls;
    PollsJoin(a, [e] + b);
    PollsJoin([e], b);
    forall j { SinglePoll(e, j); }
    TriesOn(a, [e] + b, fallback, site);
  }

  lemma TriesOn(a: seq<Event>, b: seq<Event>, fallback: Job, site: string)
    requires Tries(a, fallback, site) && NoSubmission(b)
    ensures Tries(a + b, fallback, site) && (a + b)[0] == a[0]
  {
    forall i | |a| <= i < |a + b| ensures !Submits((a + b)[i]) {
      assert (a + b)[i] == b[i - |a|];
      assert b[i - |a|] in b;
    }
  }

  /** Events about the fallback alone poll nothing else. */
  lemma QuietFor(fallback: Job, events: seq<Event>)
    requires forall e :: e in events ==> (e.Observed? && e.job == fallback) || Submits(e) || e.Recorded?
    ensures forall j :: j != fallback ==> Polls(events, j) == 0
    ensures Cancelled(fallback) !in events
  {
    forall j | j != fallback ensures Polls(events, j) == 0 {
      forall i | 0 <= i < |events| && events[i].Observed? ensures events[i].job == fallback {
        assert events[i] in events;
      }
      ElsewherePolls(events, fallback, j);
    }
  }

  /** Every trial of `events` is polled at most `bound` times. */
  ghost predicate PollsBounded(events: seq<Event>, fallback: Job, issued: set<Job>, bound: nat) {
    forall j :: j != fallback && Polls(events, j) > 0 ==> j in issued && Polls(events, j) <= bound
  }

  lemma BoundedJoin(
    a: seq<Event>, b: seq<Event>, fallback: Job, middle: set<Job>, after: set<Job>, bound: nat, more: nat)
    requires PollsBounded(a, fallback, middle, bound) && OnlyNewPolled(b, fallback, middle, after, more)
    requires middle <= after && more <= bound
    ensures PollsBounded(a + b, fallback, after, bound)
  {
    PollsJoin(a, b);
  }

  ghost function Joined(tries: seq<Try>): seq<Event> {
    if tries == [] then [] else Joined(tries[..|tries| - 1]) + tries[|tries| - 1].events
  }

  lemma JoinedNone()
    ensures forall first :: first + Joined([]) == first
  {
  }

  lemma JoinedOneMore(first: seq<Event>, tries: seq<Try>, t: Try)
    ensures first + Joined(tries + [t]) == (first + Joined(tries)) + t.events
  {
    assert (tries + [t])[..|tries|] == tries;
  }

  /** One after another between two moments. */
  ghost predicate InTurn(tries: seq<Try>, from: real, to: real) {
    && from <= to
    && (forall i :: 0 <= i < |tries| ==> from <= tries[i].began && tries[i].ended <= to)
    && (forall i, j :: 0 <= i < j < |tries| ==> tries[i].ended <= tries[j].began)
  }

  lemma InTurnNext(tries: seq<Try>, t: Try, from: real, now: real)
    requires InTurn(tries, from, now) && now <= t.began <= t.ended
    ensures InTurn(tries + [t], from, t.ended)
  {
  }

  /** The recorded trial is taken up first and has until its recorded deadline. */
  ghost predicate TakenUp(t: Try, job: Job, deadline: real) {
    && t.events != [] && t.events[0] == Attached(job) && t.job == job && t.verdict.Some?
    && NoSubmission(t.events) && t.began <= t.ended && HadItsTime(t, deadline)
  }

  ghost function EventsOf(t: Option<Try>): seq<Event> {
    if t.Some? then t.value.events else []
  }

  /** Take up the recorded trial. */
  method Resume(op: Operator, fallback: Job, job: Job, deadline: real, pollSeconds: real)
    returns (verdict: Verdict, ghost t: Try)
    requires op.Valid() && op.state.memory.Idle? && op.facts.status.Trial? && op.facts.trial == job
    requires fallback == op.facts.current && pollSeconds > 0.0
    modifies op
    ensures op.Valid() && op.clock >= old(op.clock) && op.issued == old(op.issued)
    ensures op.log == old(op.log) + t.events && t.verdict == Some(verdict) && TakenUp(t, job, deadline)
    ensures t.began == old(op.clock) && t.ended == op.clock
    ensures if verdict.TrialRan? then Replaced(op.state, fallback, job) else Settled(op.state, fallback)
    ensures PollsBounded(t.events, fallback, op.issued, Rounds(deadline - old(op.clock), pollSeconds))
    ensures verdict.TrialRan? <==> Cancelled(fallback) in t.events
    ensures verdict.FallbackRan? ==> Observed(fallback, Running) in t.events
    ensures NapsOf(old(op.naps), op.naps, pollSeconds)
  {
    hide Inv, Accepted, After, Rounds, Polls, Replaced, Settled, LastAnswer, Dismissed;
    ghost var began := op.clock;
    TrialIsIssued(op.state);
    op.Reattach(job);
    TrialIsNotFallback(op.state);
    ghost var polled, last;
    verdict, polled, last := PollTrial(op, fallback, job, deadline, pollSeconds);
    PollsJoin([Attached(job)], polled);
    QuietAttach(job);
    LastLater([Attached(job)], polled, job, last.state);
    t := Try([Attached(job)] + polled, Some(verdict), job, last, began, op.clock);
  }

  /** `attempt_immediate_replacement`. */
  method Attempt(
    op: Operator, fallback: Job, candidates: seq<string>, existing: Option<(Job, real)>, trialSeconds: real, pollSeconds: real)
    returns (r: Result<Outcome>, ghost events: seq<Event>, ghost taken: Option<Try>, ghost tried: seq<Try>)
    requires op.Valid() && op.state.memory.Idle? && fallback == op.facts.current
    requires if existing.Some? then op.facts.status.Trial? && op.facts.trial == existing.value.0 else op.facts.status.Inactive?
    modifies op
    ensures op.Valid() && op.log == old(op.log) + events && op.clock >= old(op.clock)
    ensures r.Err? <==> fallback.id <= 0 || trialSeconds <= 0.0 || pollSeconds <= 0.0
    ensures r.Err? ==> events == [] && op.state == old(op.state)
    // One allocation is left to monitor: the running trial, or the fallback, uncancelled.
    ensures r.Ok? && r.value.replaced ==> Replaced(op.state, fallback, r.value.job)
    ensures r.Ok? && !r.value.replaced ==> Settled(op.state, fallback) && r.value.job == fallback
    ensures r.Ok? ==> (r.value.replaced <==> Cancelled(fallback) in events)
    // The recorded trial comes first, then the candidates are tried one after another in
    // their order, none of them passed over unless one of them or the fallback runs.
    ensures events == EventsOf(taken) + Joined(tried)
    ensures taken.Some? <==> r.Ok? && existing.Some?
    ensures taken.Some? ==> TakenUp(taken.value, existing.value.0, existing.value.1)
    ensures |tried| <= |candidates| && forall i :: 0 <= i < |tried| ==> FairTry(tried[i], fallback, candidates[i], trialSeconds)
    ensures InTurn(tried, if taken.Some? then taken.value.ended else old(op.clock), op.clock)
    ensures r.Ok? && !r.value.replaced && Observed(fallback, Running) !in events ==> |tried| == |candidates|
    ensures r.Ok? && r.value.replaced ==>
      if tried == [] then existing.Some? && r.value.job == existing.value.0
      else tried[|tried| - 1].verdict == Some(TrialRan) && r.value.job == tried[|tried| - 1].job
    ensures r.Ok? && candidates != [] ==> events != []
    ensures r.Ok? ==> PollsBounded(events, fallback, op.issued,
      Rounds(Longest(trialSeconds, if existing.Some? then existing.value.1 - old(op.clock) else 0.0), pollSeconds))
    ensures NapsOf(old(op.naps), op.naps, pollSeconds)
  {
    hide Inv, Accepted, After, Rounds, Polls, Replaced, FairTry, TakenUp, Joined, InTurn, NapsOf, OnlyNewPolled;
    NapsStart(op.naps, pollSeconds);
    events, taken, tried := [], None, [];
    JoinedNone();
    if fallback.id <= 0 || trialSeconds <= 0.0 || pollSeconds <= 0.0 {
      NoTurns(op.clock);
      return Err("arguments must be positive"), [], None, [];
    }
    ghost var bound := Rounds(
      Longest(trialSeconds, if existing.Some? then existing.value.1 - op.clock else 0.0), pollSeconds);
    NoPolls();
    if existing.Some? {
      var (job, deadline) := existing.value;
      RoundsMonotone(deadline - op.clock, Longest(trialSeconds, deadline - op.clock), pollSeconds);
      var v;
      ghost var t;
      v, t := Resume(op, fallback, job, deadline, pollSeconds);
      events, taken := t.events, Some(t);
      TakenEvents(t, job, deadline);
      NoTurns(op.clock);
      if v.TrialRan? { return Ok(Outcome(job, true)), events, taken, []; }
      if v.FallbackRan? { return Ok(Outcome(fallback, false)), events, taken, []; }
    }
    ghost var from := op.clock;
    NoTurns(from);
    RoundsMonotone(trialSeconds, Longest(trialSeconds, if existing.Some? then existing.value.1 - old(op.clock) else 0.0), pollSeconds);
    for i := 0 to |candidates|
      invariant op.Valid() && Settled(op.state, fallback) && op.clock >= from
      invariant op.log == old(op.log) + events && Cancelled(fallback) !in events
      invariant events == EventsOf(taken) + Joined(tried) && |tried| == i && (i > 0 ==> events != [])
      invariant forall k :: 0 <= k < i ==> FairTry(tried[k], fallback, candidates[k], trialSeconds)
      invariant InTurn(tried, from, op.clock) && NapsOf(old(op.naps), op.naps, pollSeconds)
      invariant PollsBounded(events, fallback, op.issued, bound)
    {
      ghost var issued, now, naps := op.issued, op.clock, op.naps;
      ghost var t;
      var v, job;
      v, job, t := TryCandidate(op, fallback, candidates[i], trialSeconds, pollSeconds);
      BoundedJoin(events, t.events, fallback, issued, op.issued, bound, Rounds(trialSeconds, pollSeconds));
      PollsJoin(events, t.events);
      JoinedOneMore(EventsOf(taken), tried, t);
      FairTryEvents(t, fallback, candidates[i], trialSeconds);
      InTurnNext(tried, t, from, now);
      NapsJoin(old(op.naps), naps, op.naps, pollSeconds);
      events, tried := events + t.events, tried + [t];
      if v == Some(TrialRan) { return Ok(Outcome(job, true)), events, taken, tried; }
      if v == Some(FallbackRan) { return Ok(Outcome(fallback, false)), events, taken, tried; }
    }
    r := Ok(Outcome(fallback, false));
  }

  lemma NapsStart(naps: seq<Nap>, pollSeconds: real)
    ensures NapsOf(naps, naps, pollSeconds)
  {
  }

  lemma NapsJoin(a: seq<Nap>, b: seq<Nap>, c: seq<Nap>, pollSeconds: real)
    requires NapsOf(a, b, pollSeconds) && NapsOf(b, c, pollSeconds)
    ensures NapsOf(a, c, pollSeconds)
  {
    assert forall i :: 0 <= i < |b| ==> c[..|b|][i] == c[i];
  }

  lemma NoTurns(now: real)
    ensures InTurn([], now, now)
  {
  }

  lemma TakenEvents(t: Try, job: Job, deadline: real)
    requires TakenUp(t, job, deadline)
    ensures t.events != []
  {
  }

  lemma FairTryEvents(t: Try, fallback: Job, site: string, trialSeconds: real)
    requires FairTry(t, fallback, site, trialSeconds)
    ensures t.events != [] && t.began <= t.ended
  {
  }

  function Longest(a: real, b: real): real {
    if a >= b then a else b
  }

  lemma TrialIsIssued(s: State)
    requires Inv(s) && s.facts.status.Trial?
    ensures s.facts.trial in s.issued
  {
  }

  lemma QuietAttach(job: Job)
    ensures forall j :: Polls([Attached(job)], j) == 0
  {
    forall j { SinglePoll(Attached(job), j); }
  }

  // ----- _optimize_queued_start -----

  const TRIAL_SECONDS: real := 120.0
  const POLL_SECONDS: real := 30.0

  /** One allocation is named and nothing else may be alive, up to what was lost. */
  ghost predicate OnlyOne(s: State) {
    s.memory.Idle? && !s.facts.status.Trial? && s.owed <= {s.facts.current} + s.lost
  }

  /** The allocation was asked about, and cancelled at once if it was alive. */
  ghost predicate SettledFallback(events: seq<Event>, f: Job) {
    exists i :: 0 <= i < |events| && AskedAndEnded(events, i, f)
  }

  ghost predicate AskedAndEnded(events: seq<Event>, i: nat, f: Job)
    requires i < |events|
  {
    && events[i].Observed? && events[i].job == f
    && (events[i].state in {Queued, Running, Finishing} ==> i + 1 < |events| && events[i + 1] == Cancelled(f))
  }

  /** Settle an adoption whose fallback may still be alive. */
  method SettleAdoption(op: Operator) returns (ghost events: seq<Event>)
    requires op.Valid() && op.state.memory.Idle? && op.facts.status.Adopted?
    modifies op`clock, op`facts, op`state, op`log
    ensures op.Valid() && op.log == old(op.log) + events
    ensures op.state.memory.Idle? && OnlyOne(op.state) && op.facts.status.Adopted? && op.facts.current == old(op.facts.current)
    ensures op.facts.fallback == old(op.facts.fallback)
    ensures op.facts.fallback != op.facts.current ==> op.facts.fallbackCancelled
    ensures Event.Requeued !in events
    // A fallback not recorded as cancelled is asked about, and cancelled if it is alive.
    ensures old(op.facts.fallback != op.facts.current && !op.facts.fallbackCancelled) ==>
      SettledFallback(events, op.facts.fallback) && op.facts.fallback !in op.state.owed
  {
    hide Accepted, After;
    events := [];
    var previous := op.facts.fallback;
    if previous != op.facts.current && !op.facts.fallbackCancelled {
      var seen := op.Ask(previous);
      events := [Observed(previous, seen.state)];
      if !Over(seen.state) {
        op.Cancel(previous);
        events := events + [Cancelled(previous)];
      }
      op.SettleFallback();
      events := events + [FallbackSettled];
      assert AskedAndEnded(events, 0, previous);
    }
  }

  /** Worth improving: queued, without a forecast or with a far one. */
  ghost predicate WorthImproving(r: Report) {
    r.state == Queued && r.distant
  }

  /** `_optimize_queued_start`, called for the recorded allocation; which sites qualify is up to
      the caller. */
  method Optimize(op: Operator, fallback: Job, candidates: seq<string>)
    returns (job: Job, ghost events: seq<Event>, ghost first: Report, ghost tried: seq<Try>)
    requires op.Valid() && op.state.memory.Idle? && fallback == op.facts.current
    modifies op
    ensures op.Valid() && op.log == old(op.log) + events
    ensures OnlyOne(op.state) && job == op.facts.current && events != [] && events[0] == Observed(fallback, first.state)
    // A recorded trial is taken up again before anything else ...
    ensures old(op.facts.status.Trial?) ==> |events| > 1 && events[1] == Attached(old(op.facts.trial))
    // ... an adoption whose fallback was not recorded as cancelled is completed ...
    ensures old(op.facts.status.Adopted? && op.facts.fallback != op.facts.current && !op.facts.fallbackCancelled) ==>
      SettledFallback(events, old(op.facts.fallback))
    // ... an adopted allocation is requeued exactly when it is queued, and otherwise kept ...
    ensures old(op.facts.status.Adopted?) ==>
      (Event.Requeued in events <==> first.state.Queued?) && (!first.state.Queued? ==> job == fallback && tried == [])
    // ... and whenever there is something to gain, all candidates get their time in turn.
    ensures |tried| <= |candidates| && forall i :: 0 <= i < |tried| ==> FairTry(tried[i], fallback, candidates[i], 120.0)
    ensures old(op.facts.status.Trial?) || WorthImproving(first) ==>
      job != fallback || Observed(fallback, Running) in events || |tried| == |candidates|
    ensures !old(op.facts.status.Trial?) && !WorthImproving(first) ==> job == fallback && tried == []
    ensures NapsOf(old(op.naps), op.naps, 30.0)
  {
    hide Accepted, After, Inv, PollsBounded, Settled, Replaced, SettledFallback, FairTry;
    PositiveCurrent(op.state);
    var answer := op.Ask(fallback);
    first, tried := answer, [];
    events := [Observed(fallback, answer.state)];
    if op.facts.status.Adopted? {
      ghost var settled;
      settled := SettleAdoption(op);
      SettledLater(events, settled, old(op.facts.fallback));
      events := events + settled;
      if !answer.state.Queued? { return fallback, events, first, []; }
      op.Requeue();
      SettledLater(events, [Event.Requeued], old(op.facts.fallback));
      events := events + [Event.Requeued];
    }
    ghost var more;
    job, more, tried := Improve(op, fallback, answer.state.Queued? && answer.distant, candidates);
    SettledLater(events, more, old(op.facts.fallback));
    InBoth(events, more);
    events := events + more;
  }

  lemma InBoth(a: seq<Event>, b: seq<Event>)
    ensures forall e :: e in a + b <==> e in a || e in b
  {
  }

  /** A recorded trial is taken up again; otherwise candidates are tried if that is wanted. */
  method Improve(op: Operator, fallback: Job, seek: bool, candidates: seq<string>)
    returns (job: Job, ghost events: seq<Event>, ghost tried: seq<Try>)
    requires op.Valid() && op.state.memory.Idle? && !op.facts.status.Adopted?
    requires fallback == op.facts.current && fallback.id > 0
    modifies op
    ensures op.Valid() && op.log == old(op.log) + events && OnlyOne(op.state) && job == op.facts.current
    ensures old(op.facts.status.Trial?) ==> events != [] && events[0] == Attached(old(op.facts.trial))
    // ... and each candidate gets 120 seconds, polled every 30.
    ensures |tried| <= |candidates| && forall i :: 0 <= i < |tried| ==> FairTry(tried[i], fallback, candidates[i], 120.0)
    ensures (old(op.facts.status.Trial?) || seek) && job == fallback && Observed(fallback, Running) !in events ==>
      |tried| == |candidates|
    ensures !old(op.facts.status.Trial?) && !seek ==> job == fallback && tried == []
    ensures NapsOf(old(op.naps), op.naps, 30.0)
  {
    hide Accepted, After, Inv, PollsBounded, Settled, Replaced, FairTry, InTurn;
    var existing := None;
    if op.facts.status.Trial? {
      // The recorded deadline may have passed by now.
      var remaining: real := *;
      existing := Some((op.facts.trial, op.clock + Longest(0.0, remaining)));
    }
    IdleIsOnlyOne(op.state);
    if existing.None? && (!seek || candidates == []) { return fallback, [], []; }
    var outcome;
    ghost var taken;
    outcome, events, taken, tried := Attempt(op, fallback, candidates, existing, TRIAL_SECONDS, POLL_SECONDS);
    OutcomeIsOnlyOne(op.state, fallback, outcome.value);
    if taken.Some? { TakenFirst(events, taken.value, tried, existing.value.0, existing.value.1); }
    ReplacedIsOther(op.state, fallback, outcome.value);
    job := outcome.value.job;
  }

  lemma TakenFirst(events: seq<Event>, taken: Try, tried: seq<Try>, job: Job, deadline: real)
    requires events == EventsOf(Some(taken)) + Joined(tried) && TakenUp(taken, job, deadline)
    ensures events != [] && events[0] == Attached(job)
  {
  }

  lemma ReplacedIsOther(s: State, fallback: Job, o: Outcome)
    requires if o.replaced then Replaced(s, fallback, o.job) else o.job == fallback
    ensures o.replaced <==> o.job != fallback
  {
  }

  lemma PositiveCurrent(s: State)
    requires Inv(s)
    ensures s.facts.current.id > 0
  {
    assert s.facts.current in Named(s.facts);
  }

  lemma IdleIsOnlyOne(s: State)
    requires Inv(s) && s.memory.Idle?
    ensures s.facts.status.Inactive? ==> OnlyOne(s)
  {
  }

  lemma OutcomeIsOnlyOne(s: State, fallback: Job, o: Outcome)
    requires Inv(s) && if o.replaced then Replaced(s, fallback, o.job) else Settled(s, fallback) && o.job == fallback
    ensures OnlyOne(s) && s.facts.current == o.job
  {
  }

  lemma SettledLater(a: seq<Event>, b: seq<Event>, f: Job)
    ensures SettledFallback(a, f) || SettledFallback(b, f) ==> SettledFallback(a + b, f)
  {
    if SettledFallback(a, f) {
      var i :| 0 <= i < |a| && AskedAndEnded(a, i, f);
      assert AskedAndEnded(a + b, i, f);
    } else if SettledFallback(b, f) {
      var i :| 0 <= i < |b| && AskedAndEnded(b, i, f);
      assert AskedAndEnded(a + b, |a| + i, f);
    }
  }

  // ----- race_queued_replacements -----

  const RESCAN_SECONDS: real := 300.0

  /** Every sleep is a rescan interval, or at most a poll interval. */
  ghost predicate NapsBetween(before: seq<Nap>, after: seq<Nap>) {
    && |before| <= |after| && after[..|before|] == before
    && forall i :: |before| <= i < |after| ==> after[i].seconds == 300.0 || 0.0 < after[i].seconds <= 30.0
  }

  /** Rescan while the allocation stays queued; `scans` bounds how often that happens. */
  method Race(op: Operator, fallback: Job, scans: nat) returns (r: Option<Outcome>, ghost last: Report)
    requires op.Valid() && op.state.memory.Idle? && fallback == op.facts.current
    modifies op
    ensures op.Valid()
    // Without an answer, every scan asked about the allocation before and after optimizing,
    // found it still worth improving at the end, and slept.
    ensures r.None? ==> |op.log| >= |old(op.log)| + 2 * scans && |op.naps| >= |old(op.naps)| + scans
    ensures r.None? && scans > 0 ==> WorthImproving(last) && op.log[|op.log| - 1] == Observed(fallback, last.state)
    ensures r.Some? ==>
      OnlyOne(op.state) && r.value.job == op.facts.current && (r.value.replaced <==> r.value.job != fallback)
    // The original allocation is the answer only when nothing is to be gained any more.
    ensures r.Some? && !r.value.replaced ==>
      !WorthImproving(last) && op.log != [] && op.log[|op.log| - 1] == Observed(fallback, last.state)
    ensures NapsBetween(old(op.naps), op.naps)
  {
    hide Accepted, After, Inv, FairTry, SettledFallback;
    r, last := None, Report(Missing, false, false);
    for i := 0 to scans
      invariant op.Valid() && op.state.memory.Idle? && op.facts.current == fallback
      invariant |op.log| >= |old(op.log)| + 2 * i && |op.naps| >= |old(op.naps)| + i
      invariant i > 0 ==> WorthImproving(last) && op.log[|op.log| - 1] == Observed(fallback, last.state)
      invariant NapsBetween(old(op.naps), op.naps)
    {
      var candidates: seq<string> := *;
      ghost var events, first, tried, naps := [], last, [], op.naps;
      var job;
      job, events, first, tried := Optimize(op, fallback, candidates);
      NapsOn(old(op.naps), naps, op.naps);
      if job != fallback { return Some(Outcome(job, true)), first; }
      var observed := op.Ask(fallback);
      last := observed;
      if !observed.state.Queued? || !observed.distant { return Some(Outcome(fallback, false)), observed; }
      op.Sleep(RESCAN_SECONDS);
    }
  }

  lemma NapsOn(start: seq<Nap>, before: seq<Nap>, after: seq<Nap>)
    requires NapsBetween(start, before) && NapsOf(before, after, 30.0)
    ensures NapsBetween(start, after)
  {
    assert forall i :: 0 <= i < |before| ==> after[..|before|][i] == after[i];
  }

  // ----- Crash and recovery -----

  /** A process died anywhere in an accepted run: the next one ends with one allocation to
      monitor, has taken up the recorded trial or settled the recorded adoption, and loses
      exactly what the dead run left unrecorded and what its own submissions that raised had
      reserved. */
  method RecoverAfterCrash(
    facts: Facts, issued: set<Job>, candidates: seq<string>, ghost before: State, ghost run: seq<Event>)
    returns (job: Job, after: Facts, ghost end: State, ghost events: seq<Event>)
    requires Inv(before) && before.memory.Idle? && Accepted(before, run)
    requires After(before, run).facts == facts && After(before, run).issued == issued
    ensures Accepted(Restart(After(before, run)), events) && end == After(Restart(After(before, run)), events)
    ensures Inv(end) && OnlyOne(end) && after == end.facts
    ensures job == after.current && !after.status.Trial?
    ensures forall j :: j in end.lost <==> j in before.lost || Loses(run, j) || SubmitRaised(j) in events
    ensures facts.status.Trial? ==> |events| > 1 && events[1] == Attached(facts.trial)
    ensures facts.status.Adopted? && facts.fallback != facts.current && !facts.fallbackCancelled ==>
      SettledFallback(events, facts.fallback)
  {
    InvAlways(before, run, |run|);
    assert run[..|run|] == run;
    forall j { LostInRun(before, run, j); }
    RestartKeepsInv(After(before, run));
    hide Inv, Accepted, After, Restart, OnlyOne, SettledFallback;
    var op := new Operator(facts, issued, After(before, run));
    ghost var first, tried;
    job, events, first, tried := Optimize(op, facts.current, candidates);
    LogKeepsLost(op);
    OnlyOneResolved(op.state);
    after, end := op.facts, op.state;
    assert op.log == events;
  }

  lemma OnlyOneResolved(s: State)
    requires OnlyOne(s)
    ensures !s.facts.status.Trial?
  {
  }

  lemma LogKeepsLost(op: Operator)
    requires op.Valid()
    ensures forall j :: j in op.state.lost <==> j in op.start.lost || SubmitRaised(j) in op.log
  {
    forall j { LostByRaising(op.start, op.log, j); }
  }
}
