/** Draining one queue per stratum in schedule order. */
module Queues {
  import opened FairQueue
  import opened Ranking

  /** The schedule never asks a queue for more than it holds. */
  ghost predicate Fits<K(!new), V>(schedule: seq<K>, queues: map<K, seq<V>>) {
    forall k :: k in multiset(schedule) ==> k in queues && multiset(schedule)[k] <= |queues[k]|
  }

  lemma FitsPrefix<K(!new), V>(schedule: seq<K>, queues: map<K, seq<V>>, n: nat)
    requires Fits(schedule, queues) && n <= |schedule|
    ensures Fits(schedule[..n], queues)
  {
    forall k | k in multiset(schedule[..n])
      ensures k in queues && multiset(schedule[..n])[k] <= |queues[k]|
    {
      CountsGrow(schedule, n, k);
      assert k in multiset(schedule);
    }
  }

  /** The next item of the last stratum is always there to take. */
  lemma FitsLast<K(!new), V>(schedule: seq<K>, queues: map<K, seq<V>>)
    requires Fits(schedule, queues) && schedule != []
    ensures var n := |schedule| - 1;
      schedule[n] in queues && multiset(schedule[..n])[schedule[n]] < |queues[schedule[n]]|
      && Fits(schedule[..n], queues)
  {
    SplitLast(schedule);
    FitsPrefix(schedule, queues, |schedule| - 1);
    assert schedule[|schedule| - 1] in multiset(schedule);
  }

  /** The item taken at each step is the next unserved item of the scheduled stratum. */
  ghost function Merge<K(!new), V>(schedule: seq<K>, queues: map<K, seq<V>>): (r: seq<V>)
    requires Fits(schedule, queues)
    ensures |r| == |schedule|
  {
    if schedule == [] then [] else
      FitsLast(schedule, queues);
      var n := |schedule| - 1;
      Merge(schedule[..n], queues) + [queues[schedule[n]][multiset(schedule[..n])[schedule[n]]]]
  }

  lemma {:induction false} MergePrefix<K(!new), V>(schedule: seq<K>, queues: map<K, seq<V>>, n: nat)
    requires Fits(schedule, queues) && n <= |schedule|
    ensures Fits(schedule[..n], queues)
    ensures Merge(schedule[..n], queues) == Merge(schedule, queues)[..n]
  {
    FitsPrefix(schedule, queues, n);
    var last := |schedule| - 1;
    if n == |schedule| {
      assert schedule[..n] == schedule;
    } else {
      FitsLast(schedule, queues);
      MergePrefix(schedule[..last], queues, n);
      assert schedule[..last][..n] == schedule[..n];
    }
  }

  /** Where each merged item comes from. */
  lemma MergeAt<K(!new), V>(schedule: seq<K>, queues: map<K, seq<V>>, i: nat)
    requires Fits(schedule, queues) && i < |schedule|
    ensures var k := schedule[i];
      && k in queues && multiset(schedule[..i])[k] < |queues[k]|
      && Merge(schedule, queues)[i] == queues[k][multiset(schedule[..i])[k]]
  {
    MergePrefix(schedule, queues, i + 1);
    var upto := schedule[..i + 1];
    assert upto[..i] == schedule[..i] && upto[i] == schedule[i];
    FitsLast(upto, queues);
    assert Merge(schedule, queues)[i] == Merge(upto, queues)[i];
  }

  /** Two items of one stratum keep their order. */
  lemma MergeSameQueue<K(!new), V>(schedule: seq<K>, queues: map<K, seq<V>>, i: nat, j: nat) returns (a: nat, b: nat)
    requires Fits(schedule, queues) && i < j < |schedule| && schedule[i] == schedule[j]
    ensures schedule[i] in queues && a < b < |queues[schedule[i]]|
    ensures Merge(schedule, queues)[i] == queues[schedule[i]][a] && Merge(schedule, queues)[j] == queues[schedule[i]][b]
  {
    MergeAt(schedule, queues, i);
    MergeAt(schedule, queues, j);
    var k := schedule[i];
    a, b := multiset(schedule[..i])[k], multiset(schedule[..j])[k];
    var upto := schedule[..i + 1];
    CountStep(upto, k);
    assert upto[..i] == schedule[..i];
    assert schedule[..j][..i + 1] == upto;
    CountsGrow(schedule[..j], i + 1, k);
  }

  /** Only the first items of each queue, as many as are scheduled, matter. */
  lemma {:induction false} MergeTruncated<K(!new), V>(
    schedule: seq<K>, queues: map<K, seq<V>>, short: map<K, seq<V>>)
    requires Fits(schedule, queues) && Fits(schedule, short)
    requires forall k :: k in multiset(schedule) ==> short[k] <= queues[k]
    ensures Merge(schedule, queues) == Merge(schedule, short)
  {
    if schedule != [] {
      var n := |schedule| - 1;
      FitsLast(schedule, queues);
      FitsLast(schedule, short);
      SplitLast(schedule);
      MergeTruncated(schedule[..n], queues, short);
      assert schedule[n] in multiset(schedule);
    }
  }

  /** The items of stratum `k`, in the order they were merged. */
  ghost function Project<K(!new), V>(schedule: seq<K>, merged: seq<V>, k: K): seq<V>
    requires |schedule| == |merged|
  {
    if schedule == [] then [] else
      var n := |schedule| - 1;
      Project(schedule[..n], merged[..n], k) + (if schedule[n] == k then [merged[n]] else [])
  }

  lemma TakeOneMore<V>(queue: seq<V>, c: nat)
    requires c < |queue|
    ensures queue[..c + 1] == queue[..c] + [queue[c]]
  {
  }

  lemma CountStep<K>(schedule: seq<K>, k: K)
    requires schedule != []
    ensures var n := |schedule| - 1;
      multiset(schedule)[k] == multiset(schedule[..n])[k] + if schedule[n] == k then 1 else 0
  {
    SplitLast(schedule);
  }

  lemma ProjectStep<K(!new), V>(schedule: seq<K>, queues: map<K, seq<V>>, k: K)
    requires Fits(schedule, queues) && schedule != []
    ensures var n := |schedule| - 1;
      && Fits(schedule[..n], queues) && schedule[n] in queues
      && multiset(schedule[..n])[schedule[n]] < |queues[schedule[n]]|
      && Project(schedule, Merge(schedule, queues), k) == Project(schedule[..n], Merge(schedule[..n], queues), k)
        + (if schedule[n] == k then [queues[k][multiset(schedule[..n])[k]]] else [])
  {
    var n := |schedule| - 1;
    FitsLast(schedule, queues);
    assert Merge(schedule, queues)[..n] == Merge(schedule[..n], queues);
  }

  /** Merging keeps each stratum's own order and drops nothing before what it takes. */
  lemma {:induction false} MergeKeepsOrder<K(!new), V>(schedule: seq<K>, queues: map<K, seq<V>>, k: K)
    requires Fits(schedule, queues) && k in queues
    ensures multiset(schedule)[k] <= |queues[k]|
    ensures Project(schedule, Merge(schedule, queues), k) == queues[k][..multiset(schedule)[k]]
  {
    if schedule != [] {
      var n := |schedule| - 1;
      ProjectStep(schedule, queues, k);
      MergeKeepsOrder(schedule[..n], queues, k);
      CountStep(schedule, k);
      if schedule[n] == k {
        TakeOneMore(queues[k], multiset(schedule[..n])[k]);
      }
    }
  }

  /** `v` is among the items taken so far. */
  ghost predicate Taken<K(!new), V>(queues: map<K, seq<V>>, counts: multiset<K>, v: V) {
    exists k :: k in counts && TakenOf(queues, counts, k, v)
  }

  ghost predicate TakenOf<K(!new), V>(queues: map<K, seq<V>>, counts: multiset<K>, k: K, v: V) {
    k in queues && counts[k] <= |queues[k]| && v in queues[k][..counts[k]]
  }

  /** Taking one more item adds just that item. */
  lemma TakenOneMore<K(!new), V>(queues: map<K, seq<V>>, before: multiset<K>, after: multiset<K>, last: K, v: V)
    requires after == before + multiset{last} && last in queues && before[last] < |queues[last]|
    ensures Taken(queues, after, v) <==> Taken(queues, before, v) || v == queues[last][before[last]]
  {
    TakeOneMore(queues[last], before[last]);
    forall k | k != last ensures TakenOf(queues, after, k, v) <==> TakenOf(queues, before, k, v) {
      assert after[k] == before[k];
    }
    assert TakenOf(queues, after, last, v) <==> TakenOf(queues, before, last, v) || v == queues[last][before[last]];
    assert TakenOf(queues, before, last, v) ==> before[last] > 0;
    if Taken(queues, after, v) {
      var k :| k in after && TakenOf(queues, after, k, v);
      assert k != last ==> k in before && TakenOf(queues, before, k, v);
    }
    if Taken(queues, before, v) {
      var k :| k in before && TakenOf(queues, before, k, v);
      assert k in after && TakenOf(queues, after, k, v);
    }
    assert last in after;
  }

  lemma {:induction false} MergeMembers<K(!new), V>(schedule: seq<K>, queues: map<K, seq<V>>, v: V)
    requires Fits(schedule, queues)
    ensures v in Merge(schedule, queues) <==> Taken(queues, multiset(schedule), v)
  {
    if schedule != [] {
      var n := |schedule| - 1;
      FitsLast(schedule, queues);
      MergeMembers(schedule[..n], queues, v);
      CountsSplit(schedule);
      TakenOneMore(queues, multiset(schedule[..n]), multiset(schedule), schedule[n], v);
      hide Fits, Taken;
    }
  }

  lemma CountsSplit<K>(schedule: seq<K>)
    requires schedule != []
    ensures multiset(schedule) == multiset(schedule[..|schedule| - 1]) + multiset{schedule[|schedule| - 1]}
  {
    SplitLast(schedule);
  }

  ghost predicate Distinct<V>(s: seq<V>) {
    forall i, j :: 0 <= i < j < |s| ==> s[i] != s[j]
  }

  /** No item stands twice in one queue or in two queues. */
  ghost predicate Disjoint<K(!new), V>(queues: map<K, seq<V>>) {
    && (forall k :: k in queues ==> Distinct(queues[k]))
    && (forall k, l :: k in queues && l in queues && k != l ==>
        forall i, j :: 0 <= i < |queues[k]| && 0 <= j < |queues[l]| ==> queues[k][i] != queues[l][j])
  }

  lemma TakenBefore<K(!new), V>(queues: map<K, seq<V>>, k: K, c: nat, l: K, n: nat)
    requires Disjoint(queues) && k in queues && c < |queues[k]|
    requires l in queues && n <= |queues[l]| && queues[k][c] in queues[l][..n]
    ensures k == l && c < n
  {
    var i :| 0 <= i < n && queues[l][..n][i] == queues[k][c];
    assert queues[l][i] == queues[k][c];
  }

  /** Merging disjoint queues repeats nothing. */
  lemma {:induction false} MergeDistinct<K(!new), V>(schedule: seq<K>, queues: map<K, seq<V>>)
    requires Fits(schedule, queues) && Disjoint(queues)
    ensures Distinct(Merge(schedule, queues))
  {
    if schedule != [] {
      var n := |schedule| - 1;
      FitsLast(schedule, queues);
      MergeDistinct(schedule[..n], queues);
      var before := multiset(schedule[..n]);
      var v := queues[schedule[n]][before[schedule[n]]];
      MergeMembers(schedule[..n], queues, v);
      if v in Merge(schedule[..n], queues) {
        var k :| k in before && TakenOf(queues, before, k, v);
        TakenBefore(queues, schedule[n], before[schedule[n]], k, before[k]);
      }
    }
  }

  lemma {:induction false} DistinctSize<V>(s: seq<V>)
    requires Distinct(s)
    ensures |Elements(s)| == |s|
  {
    if s != [] {
      var n := |s| - 1;
      DistinctSize(s[..n]);
      assert Elements(s) == Elements(s[..n]) + {s[n]};
    }
  }

  /** Replacing each queue by what is left after the pops made so far. */
  ghost predicate Drained<K(!new), V>(left: map<K, seq<V>>, queues: map<K, seq<V>>, done: seq<K>) {
    && left.Keys == queues.Keys
    && forall k :: k in queues ==>
      multiset(done)[k] <= |queues[k]| && left[k] == queues[k][multiset(done)[k]..]
  }

  lemma DrainStep<K(!new), V>(left: map<K, seq<V>>, queues: map<K, seq<V>>, schedule: seq<K>, i: nat)
    requires Fits(schedule, queues) && i < |schedule| && Drained(left, queues, schedule[..i])
    ensures schedule[i] in left && left[schedule[i]] != []
    ensures Fits(schedule[..i], queues) && Fits(schedule[..i + 1], queues)
    ensures Merge(schedule[..i + 1], queues) == Merge(schedule[..i], queues) + [left[schedule[i]][0]]
    ensures Drained(left[schedule[i] := left[schedule[i]][1..]], queues, schedule[..i + 1])
  {
    var upto := schedule[..i + 1];
    FitsPrefix(schedule, queues, i + 1);
    FitsPrefix(schedule, queues, i);
    assert upto[..i] == schedule[..i] && upto[i] == schedule[i];
    FitsLast(upto, queues);
    DrainedNext(left, queues, schedule[..i], upto);
  }

  lemma DrainedNext<K(!new), V>(left: map<K, seq<V>>, queues: map<K, seq<V>>, done: seq<K>, upto: seq<K>)
    requires upto != [] && done == upto[..|upto| - 1] && Drained(left, queues, done)
    requires upto[|upto| - 1] in queues && multiset(done)[upto[|upto| - 1]] < |queues[upto[|upto| - 1]]|
    ensures var k := upto[|upto| - 1]; k in left && left[k] != [] && Drained(left[k := left[k][1..]], queues, upto)
  {
    var k := upto[|upto| - 1];
    SplitLast(upto);
    assert multiset(upto) == multiset(done) + multiset{k};
    var c := multiset(done)[k];
    assert left[k][1..] == queues[k][c + 1..];
  }

  /** `[queues[key].popleft() for key in schedule]`. */
  method Drain<K(!new,==), V>(schedule: seq<K>, queues: map<K, seq<V>>) returns (result: seq<V>)
    requires Fits(schedule, queues)
    ensures result == Merge(schedule, queues)
  {
    var left := queues;
    result := [];
    for i := 0 to |schedule|
      invariant Fits(schedule[..i], queues)
      invariant result == Merge(schedule[..i], queues)
      invariant Drained(left, queues, schedule[..i])
    {
      DrainStep(left, queues, schedule, i);
      var key := schedule[i];
      result := result + [left[key][0]];
      left := left[key := left[key][1..]];
    }
    assert schedule[..|schedule|] == schedule;
  }
}
