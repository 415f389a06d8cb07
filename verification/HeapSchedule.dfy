/** `_weighted_schedule`: merging the strata's priority streams with a heap. */
module HeapSchedule {
  import opened Wrappers
  import opened FairQueue
  import opened Apportionment

  datatype Entry<K> = Entry(priority: real, rank: nat, ordinal: nat, key: K, served: nat)

  /** Tuple comparison; ordinals differ, so keys are never compared. */
  predicate Less<K>(a: Entry<K>, b: Entry<K>) {
    || a.priority < b.priority
    || (a.priority == b.priority && a.rank < b.rank)
    || (a.priority == b.priority && a.rank == b.rank && a.ordinal < b.ordinal)
  }

  /** `heapq.heappop`: some least item leaves, the others stay. */
  method PopLeast<K>(heap: seq<Entry<K>>) returns (least: nat, rest: seq<Entry<K>>)
    requires heap != []
    ensures least < |heap| && rest == heap[..least] + heap[least + 1..]
    ensures forall i :: 0 <= i < |heap| ==> !Less(heap[i], heap[least])
  {
    least := 0;
    for i := 1 to |heap|
      invariant least < i
      invariant forall j :: 0 <= j < i ==> !Less(heap[j], heap[least])
    {
      if Less(heap[i], heap[least]) {
        least := i;
      }
    }
    rest := heap[..least] + heap[least + 1..];
  }

  /** The heap holds one up-to-date entry for every unexhausted stratum. */
  ghost predicate Current<K(!new)>(
    heap: seq<Entry<K>>, sizes: Strata<K>, prio: (K, nat) -> real, rank: K -> nat, served: multiset<K>)
  {
    && (forall i :: 0 <= i < |heap| ==> UpToDate(heap[i], sizes, prio, rank, served))
    && (forall i, j :: 0 <= i < j < |heap| ==> heap[i].key != heap[j].key)
    && (forall k :: Waiting(sizes, served, k) ==> HasKey(heap, k))
  }

  ghost predicate UpToDate<K(!new)>(
    e: Entry<K>, sizes: Strata<K>, prio: (K, nat) -> real, rank: K -> nat, served: multiset<K>)
  {
    && Waiting(sizes, served, e.key)
    && e.served == served[e.key]
    && e.priority == prio(e.key, e.served)
    && e.rank == rank(e.key)
  }

  ghost predicate HasKey<K>(heap: seq<Entry<K>>, k: K) {
    exists i :: 0 <= i < |heap| && heap[i].key == k
  }

  /** The least entry is the stratum a full scan would have picked. */
  lemma LeastIsNext<K(!new)>(
    heap: seq<Entry<K>>, least: nat, sizes: Strata<K>, prio: (K, nat) -> real, rank: K -> nat, served: multiset<K>)
    requires Injective(rank) && Current(heap, sizes, prio, rank, served)
    requires least < |heap| && forall i :: 0 <= i < |heap| ==> !Less(heap[i], heap[least])
    ensures Next(sizes, prio, rank, served, heap[least].key)
  {
    var e := heap[least];
    forall j | Waiting(sizes, served, j) && j != e.key
      ensures Before(prio, rank, served, e.key, j)
    {
      assert HasKey(heap, j);
      var i :| 0 <= i < |heap| && heap[i].key == j;
      assert UpToDate(heap[i], sizes, prio, rank, served) && UpToDate(e, sizes, prio, rank, served);
      assert rank(j) != rank(e.key);
    }
  }

  lemma WithoutAt<K>(heap: seq<Entry<K>>, at: nat, rest: seq<Entry<K>>, k: K)
    requires at < |heap| && rest == heap[..at] + heap[at + 1..]
    requires HasKey(heap, k) && k != heap[at].key
    ensures HasKey(rest, k)
  {
    var i :| 0 <= i < |heap| && heap[i].key == k;
    assert rest[if i < at then i else i - 1] == heap[i];
  }

  lemma PopLeavesOthers<K(!new)>(
    heap: seq<Entry<K>>, at: nat, rest: seq<Entry<K>>,
    sizes: Strata<K>, prio: (K, nat) -> real, rank: K -> nat, served: multiset<K>)
    requires Current(heap, sizes, prio, rank, served) && at < |heap|
    requires rest == heap[..at] + heap[at + 1..]
    ensures forall i :: 0 <= i < |rest| ==> rest[i].key != heap[at].key
    ensures forall i :: 0 <= i < |rest| ==>
      UpToDate(rest[i], sizes, prio, rank, served + multiset{heap[at].key})
    ensures forall i, j :: 0 <= i < j < |rest| ==> rest[i].key != rest[j].key
  {
    forall i | 0 <= i < |rest|
      ensures rest[i].key != heap[at].key
      ensures UpToDate(rest[i], sizes, prio, rank, served + multiset{heap[at].key})
    {
      var i' := if i < at then i else i + 1;
      assert rest[i] == heap[i'];
      assert UpToDate(heap[i'], sizes, prio, rank, served);
    }
  }

  /** Popping the least entry and pushing its successor keeps the heap current. */
  lemma PopKeepsCurrent<K(!new)>(
    heap: seq<Entry<K>>, at: nat, rest: seq<Entry<K>>, next: seq<Entry<K>>,
    sizes: Strata<K>, prio: (K, nat) -> real, rank: K -> nat, served: multiset<K>)
    requires Current(heap, sizes, prio, rank, served) && at < |heap|
    requires rest == heap[..at] + heap[at + 1..]
    requires var e := heap[at];
      next == if e.served + 1 < sizes[e.key]
              then rest + [Entry(prio(e.key, e.served + 1), e.rank, e.ordinal, e.key, e.served + 1)]
              else rest
    ensures Current(next, sizes, prio, rank, served + multiset{heap[at].key})
  {
    var e := heap[at];
    assert UpToDate(e, sizes, prio, rank, served);
    PopLeavesOthers(heap, at, rest, sizes, prio, rank, served);
    forall k | Waiting(sizes, served + multiset{e.key}, k) ensures HasKey(next, k) {
      StillPresent(heap, at, rest, next, sizes, prio, rank, served, k);
    }
  }

  /** An unexhausted stratum is still in the heap: the popped one was pushed again. */
  lemma StillPresent<K(!new)>(
    heap: seq<Entry<K>>, at: nat, rest: seq<Entry<K>>, next: seq<Entry<K>>,
    sizes: Strata<K>, prio: (K, nat) -> real, rank: K -> nat, served: multiset<K>, k: K)
    requires Current(heap, sizes, prio, rank, served) && at < |heap|
    requires rest == heap[..at] + heap[at + 1..]
    requires var e := heap[at];
      && UpToDate(e, sizes, prio, rank, served)
      && next == if e.served + 1 < sizes[e.key]
              then rest + [Entry(prio(e.key, e.served + 1), e.rank, e.ordinal, e.key, e.served + 1)]
              else rest
    requires Waiting(sizes, served + multiset{heap[at].key}, k)
    ensures HasKey(next, k)
  {
    if k == heap[at].key {
      assert next[|rest|].key == k;
    } else {
      assert Waiting(sizes, served, k);
      WithoutAt(heap, at, rest, k);
      var i :| 0 <= i < |rest| && rest[i].key == k;
      assert next[i] == rest[i];
    }
  }

  predicate Positive<K(==)>(sizes: map<K, int>) {
    forall k :: k in sizes ==> 0 < sizes[k]
  }

  function AsStrata<K>(sizes: map<K, int>): (s: Strata<K>)
    requires Positive(sizes)
    ensures s == sizes
  {
    sizes
  }

  /** Initial heap: every stratum at `served == 0`, in whatever order the mapping is iterated. */
  method Seed<K(!new,==)>(sizes: Strata<K>, rank: K -> nat, ghost prio: (K, nat) -> real)
    returns (heap: seq<Entry<K>>)
    requires forall k :: k in sizes ==> prio(k, 0) == 0.0
    ensures Current(heap, sizes, prio, rank, multiset{})
  {
    heap := [];
    var left := sizes.Keys;
    while left != {}
      invariant left <= sizes.Keys
      invariant forall i :: 0 <= i < |heap| ==>
        UpToDate(heap[i], sizes, prio, rank, multiset{}) && heap[i].key !in left
      invariant forall i, j :: 0 <= i < j < |heap| ==> heap[i].key != heap[j].key
      invariant forall k :: k in sizes && k !in left ==> HasKey(heap, k)
      decreases |left|
    {
      var key :| key in left;
      ghost var prior := heap;
      heap := heap + [Entry(0.0, rank(key), |heap|, key, 0)];
      left := left - {key};
      assert heap[|prior|].key == key;
      forall k | HasKey(prior, k) ensures HasKey(heap, k) {
        var i :| 0 <= i < |prior| && prior[i].key == k;
        assert heap[i].key == k;
      }
    }
  }

  /** The heap merge returns what repeated scanning returns, for any iteration order. */
  method WeightedSchedule<K(!new,==)>(sizes: map<K, int>, rank: K -> nat, limit: int)
    returns (r: Result<seq<K>>)
    requires Injective(rank)
    ensures limit <= 0 || sizes == map[] ==> r == Ok([])
    ensures limit > 0 && !Positive(sizes) ==> r.Err?
    ensures limit > 0 && Positive(sizes) ==>
      r == Ok(Schedule(AsStrata(sizes), Share(AsStrata(sizes), 0), rank, limit))
  {
    if limit <= 0 || sizes == map[] {
      EmptySchedule(rank, limit);
      return Ok([]);
    }
    if k :| k in sizes && sizes[k] <= 0 {
      return Err("stratum sizes must be positive integers");
    }
    var result := MergeStreams(AsStrata(sizes), rank, limit);
    return Ok(result);
  }

  lemma EmptySchedule<K(!new)>(rank: K -> nat, limit: int)
    requires Injective(rank)
    ensures limit > 0 ==> Schedule(map[], Share(map[], 0), rank, limit) == []
  {
    if limit > 0 {
      ScheduleGreedy(map[], Share(map[], 0), rank, limit);
    }
  }

  lemma DoneIsSchedule<K(!new)>(
    heap: seq<Entry<K>>, sizes: Strata<K>, prio: (K, nat) -> real, rank: K -> nat, limit: nat, s: seq<K>)
    requires Injective(rank) && Greedy(sizes, prio, rank, s)
    requires Current(heap, sizes, prio, rank, multiset(s))
    requires |s| <= limit && (heap == [] || |s| == limit)
    ensures s == Schedule(sizes, prio, rank, limit)
  {
    GreedyWithin(sizes, prio, rank, s);
    OpenIffShort(sizes, multiset(s));
    if |s| < limit {
      forall k ensures !Waiting(sizes, multiset(s), k) {
        assert !HasKey(heap, k);
      }
    }
    ScheduleUnique(sizes, prio, rank, limit, s);
  }

  method MergeStreams<K(!new,==)>(sizes: Strata<K>, rank: K -> nat, limit: nat)
    returns (result: seq<K>)
    requires Injective(rank)
    ensures result == Schedule(sizes, Share(sizes, 0), rank, limit)
  {
    ghost var prio := Share(sizes, 0);
    var heap := Seed(sizes, rank, prio);
    result := [];
    while heap != [] && |result| < limit
      invariant Greedy(sizes, prio, rank, result)
      invariant Current(heap, sizes, prio, rank, multiset(result))
      invariant |result| <= limit
      decreases limit - |result|
    {
      var least, rest := PopLeast(heap);
      var e := heap[least];
      LeastIsNext(heap, least, sizes, prio, rank, multiset(result));
      GreedyAppend(sizes, prio, rank, result, e.key);
      var nextServed := e.served + 1;
      var next := rest;
      if nextServed < sizes[e.key] {
        next := rest + [Entry(nextServed as real / sizes[e.key] as real, e.rank, e.ordinal, e.key, nextServed)];
      }
      PopKeepsCurrent(heap, least, rest, next, sizes, prio, rank, multiset(result));
      heap := next;
      result := result + [e.key];
    }
    DoneIsSchedule(heap, sizes, prio, rank, limit, result);
  }
}
