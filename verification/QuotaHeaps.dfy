/** Quota-bounded heaps of candidate rows, one per scheduled stratum. */
module QuotaHeaps {
  import opened Wrappers
  import opened Ranking
  import opened FairQueue
  import opened Queues
  import opened SentenceTable
  import opened Selection

  /** A retained row: its sort key and what is kept of it. */
  datatype Candidate<+P> = Candidate(order: int, rank: int, index: nat, payload: P)

  function KeyOf<P>(c: Candidate<P>): Key {
    Key(c.order, c.rank, c.index)
  }

  /** Heaps compare the negated tuple, so the root is the worst retained row. */
  function HeapValue<P>(c: Candidate<P>): Key {
    Key(-c.order, -c.rank, -(c.index as int))
  }

  lemma HeapValueReverses<P>(a: Candidate<P>, b: Candidate<P>)
    ensures Less(HeapValue(a), HeapValue(b)) <==> Less(KeyOf(b), KeyOf(a))
  {
  }

  // ----- The heap of one stratum -----

  /** A list of exactly the rows `h`, each once, under their own keys. */
  ghost predicate Lists<P>(items: seq<Candidate<P>>, h: set<nat>, key: nat -> Key, load: nat -> P) {
    && (forall i :: 0 <= i < |items| ==> items[i].index in h && Faithful(items[i], key, load))
    && (forall i, j :: 0 <= i < j < |items| ==> items[i].index != items[j].index)
    && (forall g :: g in h ==> HasIndex(items, g))
  }

  /** A heap of the rows `h`: the worst row is at the root. */
  ghost predicate Holds<P>(heap: seq<Candidate<P>>, h: set<nat>, key: nat -> Key, load: nat -> P) {
    && Lists(heap, h, key, load)
    && (forall i :: 0 < i < |heap| ==> Less(HeapValue(heap[0]), HeapValue(heap[i])))
  }

  ghost predicate Faithful<P>(c: Candidate<P>, key: nat -> Key, load: nat -> P) {
    KeyOf(c) == key(c.index) && c.payload == load(c.index)
  }

  ghost predicate HasIndex<P>(heap: seq<Candidate<P>>, g: nat) {
    exists i :: 0 <= i < |heap| && heap[i].index == g
  }

  function Indexes<P>(heap: seq<Candidate<P>>): (r: seq<nat>)
    ensures |r| == |heap| && forall i :: 0 <= i < |heap| ==> r[i] == heap[i].index
  {
    seq(|heap|, i requires 0 <= i < |heap| => heap[i].index)
  }

  lemma ListsSize<P>(heap: seq<Candidate<P>>, h: set<nat>, key: nat -> Key, load: nat -> P)
    requires Lists(heap, h, key, load)
    ensures |heap| == |h|
  {
    var s := Indexes(heap);
    DistinctSize(s);
    forall g ensures g in Elements(s) <==> g in h {
      if g in h {
        assert HasIndex(heap, g);
        var i :| 0 <= i < |heap| && heap[i].index == g;
        assert s[i] == g;
      }
    }
    assert Elements(s) == h;
  }

  lemma MoveToFront<P>(items: seq<Candidate<P>>, at: nat, heap: seq<Candidate<P>>,
      h: set<nat>, key: nat -> Key, load: nat -> P)
    requires Lists(items, h, key, load) && at < |items|
    requires heap == [items[at]] + items[..at] + items[at + 1..]
    ensures Lists(heap, h, key, load)
    ensures forall i :: 0 < i < |heap| ==> heap[i] == items[if i <= at then i - 1 else i]
  {
    assert forall i :: 0 <= i < |heap| ==> heap[i] == items[if i == 0 then at else if i <= at then i - 1 else i];
    forall g | g in h ensures HasIndex(heap, g) {
      assert HasIndex(items, g);
      var i :| 0 <= i < |items| && items[i].index == g;
      assert heap[if i == at then 0 else if i < at then i + 1 else i] == items[i];
    }
  }

  /** Distinct rows have different heap values, one way or the other. */
  lemma Comparable<P>(items: seq<Candidate<P>>, i: nat, j: nat)
    requires i < |items| && j < |items| && items[i].index != items[j].index
    ensures Less(HeapValue(items[i]), HeapValue(items[j])) || Less(HeapValue(items[j]), HeapValue(items[i]))
  {
  }

  /** Move a least item to the front; the library keeps `heap[0]` least. */
  method WorstFirst<P>(items: seq<Candidate<P>>, ghost h: set<nat>, ghost key: nat -> Key, ghost load: nat -> P)
    returns (heap: seq<Candidate<P>>)
    requires Lists(items, h, key, load)
    ensures Holds(heap, h, key, load)
  {
    if items == [] { return items; }
    var worst := 0;
    for i := 1 to |items|
      invariant worst < i
      invariant forall j :: 0 <= j < i && j != worst ==> Less(HeapValue(items[worst]), HeapValue(items[j]))
    {
      Comparable(items, i, worst);
      if Less(HeapValue(items[i]), HeapValue(items[worst])) {
        worst := i;
      }
    }
    heap := [items[worst]] + items[..worst] + items[worst + 1..];
    MoveToFront(items, worst, heap, h, key, load);
  }

  lemma ListsAppend<P>(items: seq<Candidate<P>>, x: Candidate<P>, h: set<nat>, key: nat -> Key, load: nat -> P)
    requires Lists(items, h, key, load) && Faithful(x, key, load) && x.index !in h
    ensures Lists(items + [x], h + {x.index}, key, load)
  {
    var more := items + [x];
    forall g | g in h + {x.index} ensures HasIndex(more, g) {
      if g == x.index {
        assert more[|items|].index == g;
      } else {
        assert HasIndex(items, g);
        var i :| 0 <= i < |items| && items[i].index == g;
        assert more[i].index == g;
      }
    }
  }

  method HeapPush<P>(
    heap: seq<Candidate<P>>, x: Candidate<P>, ghost h: set<nat>, ghost key: nat -> Key, ghost load: nat -> P)
    returns (r: seq<Candidate<P>>)
    requires Holds(heap, h, key, load) && Faithful(x, key, load) && x.index !in h
    ensures Holds(r, h + {x.index}, key, load)
  {
    ListsAppend(heap, x, h, key, load);
    r := WorstFirst(heap + [x], h + {x.index}, key, load);
  }

  method HeapReplace<P>(
    heap: seq<Candidate<P>>, x: Candidate<P>, ghost h: set<nat>, ghost key: nat -> Key, ghost load: nat -> P)
    returns (r: seq<Candidate<P>>)
    requires Holds(heap, h, key, load) && heap != [] && Faithful(x, key, load) && x.index !in h
    ensures Holds(r, h - {heap[0].index} + {x.index}, key, load)
  {
    var items := heap[1..] + [x];
    ghost var h' := h - {heap[0].index} + {x.index};
    assert forall i :: 0 <= i < |heap| - 1 ==> items[i] == heap[i + 1];
    forall g | g in h' ensures HasIndex(items, g) {
      if g == x.index {
        assert items[|heap| - 1].index == g;
      } else {
        assert HasIndex(heap, g);
        var i :| 0 <= i < |heap| && heap[i].index == g;
        assert items[i - 1].index == g;
      }
    }
    r := WorstFirst(items, h', key, load);
  }

  // ----- Offering one row -----

  datatype Change<+P> = Ignored | Pushed | Replaced(evicted: Candidate<P>)

  ghost predicate KeyedByIndex(key: nat -> Key) {
    forall g :: key(g).third == g
  }

  lemma KeyedDistinguishes(key: nat -> Key, s: set<nat>)
    requires KeyedByIndex(key)
    ensures Distinguishes(key, s)
  {
    forall x, y | x in s && y in s && x != y ensures key(x) != key(y) {
      assert key(x).third != key(y).third;
    }
  }

  ghost function Retained(s: set<nat>, quota: nat, key: nat -> Key): (h: set<nat>)
    requires KeyedByIndex(key)
    ensures IsBest(h, s, quota, key)
  {
    KeyedDistinguishes(key, s);
    Best(s, quota, key)
  }

  /** How one offer changes the set of retained rows. */
  ghost predicate ChangeOf<P>(change: Change<P>, before: set<nat>, after: set<nat>, x: nat) {
    match change
    case Ignored => after == before
    case Pushed => x !in before && after == before + {x}
    case Replaced(evicted) => x !in before && evicted.index in before && after == before - {evicted.index} + {x}
  }

  lemma RootIsWorst<P>(heap: seq<Candidate<P>>, h: set<nat>, key: nat -> Key, load: nat -> P, g: nat)
    requires Holds(heap, h, key, load) && heap != [] && g in h && g != heap[0].index
    ensures Less(key(g), key(heap[0].index))
  {
    assert HasIndex(heap, g);
    var i :| 0 <= i < |heap| && heap[i].index == g;
    HeapValueReverses(heap[0], heap[i]);
    assert Faithful(heap[i], key, load) && Faithful(heap[0], key, load);
  }

  /** Push while below the quota, otherwise replace the root when the row beats it. */
  method Offer<P>(
    heap: seq<Candidate<P>>, x: Candidate<P>, quota: nat,
    ghost s: set<nat>, ghost key: nat -> Key, ghost load: nat -> P)
    returns (r: seq<Candidate<P>>, change: Change<P>)
    requires KeyedByIndex(key) && quota > 0
    requires Holds(heap, Retained(s, quota, key), key, load)
    requires Faithful(x, key, load) && x.index !in s
    ensures Holds(r, Retained(s + {x.index}, quota, key), key, load)
    ensures ChangeOf(change, Retained(s, quota, key), Retained(s + {x.index}, quota, key), x.index)
    ensures change.Replaced? ==> heap != [] && change.evicted == heap[0]
  {
    ghost var h, h' := Retained(s, quota, key), Retained(s + {x.index}, quota, key);
    ListsSize(heap, h, key, load);
    if |heap| < quota {
      r := HeapPush(heap, x, h, key, load);
      BestPush(h, s, quota, key, x.index);
      BestUnique(h', h + {x.index}, s + {x.index}, quota, key);
      change := Pushed;
    } else {
      forall g | g in h && g != heap[0].index ensures Less(key(g), key(heap[0].index)) {
        RootIsWorst(heap, h, key, load, g);
      }
      assert heap[0].index in h && Faithful(heap[0], key, load);
      assert key(x.index) != key(heap[0].index);
      BestOffer(h, s, quota, key, x.index, heap[0].index);
      HeapValueReverses(heap[0], x);
      if Less(HeapValue(heap[0]), HeapValue(x)) {
        r := HeapReplace(heap, x, h, key, load);
        BestUnique(h', h - {heap[0].index} + {x.index}, s + {x.index}, quota, key);
        change := Replaced(heap[0]);
      } else {
        BestUnique(h', h, s + {x.index}, quota, key);
        r, change := heap, Ignored;
      }
    }
  }
}
