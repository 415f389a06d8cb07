/** In-place list sorts and grouping dictionaries, against the sorted enumeration. */
module Sorting {
  import opened Ranking
  import opened Queues
  import opened Sums

  lemma InsertedAscending<T(!new)>(sorted: seq<T>, x: T, at: nat, key: T -> Key)
    requires Ascending(sorted, key) && at <= |sorted|
    requires forall i :: 0 <= i < at ==> Less(key(sorted[i]), key(x))
    requires forall i :: at <= i < |sorted| ==> Less(key(x), key(sorted[i]))
    ensures Ascending(sorted[..at] + [x] + sorted[at..], key)
    ensures Elements(sorted[..at] + [x] + sorted[at..]) == Elements(sorted) + {x}
  {
    var r := sorted[..at] + [x] + sorted[at..];
    forall i | 0 <= i < |r| ensures r[i] == if i < at then sorted[i] else if i == at then x else sorted[i - 1] {}
    assert r[at] == x;
    forall y | y in sorted ensures y in r {
      var i :| 0 <= i < |sorted| && sorted[i] == y;
      assert r[if i < at then i else i + 1] == y;
    }
  }

  method Insert<T(!new)>(sorted: seq<T>, x: T, key: T -> Key) returns (r: seq<T>)
    requires Ascending(sorted, key)
    requires forall i :: 0 <= i < |sorted| ==> key(sorted[i]) != key(x)
    ensures Ascending(r, key) && Elements(r) == Elements(sorted) + {x}
  {
    var at := 0;
    while at < |sorted| && Less(key(sorted[at]), key(x))
      invariant at <= |sorted|
      invariant forall i :: 0 <= i < at ==> Less(key(sorted[i]), key(x))
    {
      at := at + 1;
    }
    InsertedAscending(sorted, x, at, key);
    r := sorted[..at] + [x] + sorted[at..];
  }

  /** `list.sort(key=...)` on a list without repeats. */
  method SortList<T(!new)>(items: seq<T>, key: T -> Key) returns (r: seq<T>)
    requires Distinct(items) && Distinguishes(key, Elements(items))
    ensures r == Sort(Elements(items), key)
  {
    r := [];
    for i := 0 to |items|
      invariant Ascending(r, key)
      invariant Elements(r) == Elements(items[..i])
    {
      forall j | 0 <= j < |r| ensures key(r[j]) != key(items[i]) {
        assert r[j] in Elements(items[..i]);
        assert items[i] in Elements(items);
      }
      r := Insert(r, items[i], key);
      assert Elements(items[..i + 1]) == Elements(items[..i]) + {items[i]};
    }
    assert items[..|items|] == items;
    SortUnique(r, Sort(Elements(items), key), key);
  }

  /** `sorted(entries, key=...)`, the entries found in any order. */
  method SortSet<T(!new,==)>(entries: set<T>, key: T -> Key) returns (r: seq<T>)
    requires Distinguishes(key, entries)
    ensures r == Sort(entries, key)
  {
    var items: seq<T> := [];
    var left := entries;
    while left != {}
      invariant left <= entries
      invariant Distinct(items) && Elements(items) == entries - left
      decreases |left|
    {
      var x :| x in left;
      assert forall k :: 0 <= k < |items| ==> items[k] in Elements(items);
      assert Elements(items + [x]) == Elements(items) + {x};
      items := items + [x];
      left := left - {x};
    }
    assert Elements(items) == entries;
    r := SortList(items, key);
  }

  /** Sort every list of a grouping dictionary. */
  method SortGroups<K(!new,==), V(!new)>(groups: map<K, seq<V>>, key: V -> Key) returns (queues: map<K, seq<V>>)
    requires forall k :: k in groups ==> Distinct(groups[k]) && Distinguishes(key, Elements(groups[k]))
    ensures queues.Keys == groups.Keys
    ensures forall k :: k in groups ==> queues[k] == Sort(Elements(groups[k]), key)
  {
    queues := map[];
    var left := groups.Keys;
    while left != {}
      invariant left <= groups.Keys && queues.Keys == groups.Keys - left
      invariant forall k :: k in queues ==> queues[k] == Sort(Elements(groups[k]), key)
      decreases |left|
    {
      var k :| k in left;
      var sorted := SortList(groups[k], key);
      queues := queues[k := sorted];
      left := left - {k};
    }
  }

  /** `sum(sizes.values())`. */
  method SumValues<K(!new,==)>(sizes: map<K, int>) returns (total: int)
    ensures total == Sum(sizes)
  {
    total := 0;
    var left := sizes.Keys;
    ghost var done: map<K, int> := map[];
    while left != {}
      invariant left <= sizes.Keys
      invariant done == map k | k in sizes && k !in left :: sizes[k]
      invariant total == Sum(done)
      decreases |left|
    {
      var k :| k in left;
      SumUpdate(done, k, sizes[k]);
      done := done[k := sizes[k]];
      total := total + sizes[k];
      left := left - {k};
    }
    assert done == sizes;
  }
}
