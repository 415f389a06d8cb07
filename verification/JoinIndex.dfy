/** Integrity checks, lookup dictionaries and the comprehensions they stand for. */
module JoinIndex {
  import opened Wrappers

  // ----- Comprehensions -----

  /** `[x for x in items if f(x)]`. */
  function Keep<T>(items: seq<T>, f: T -> bool): seq<T> {
    if items == [] then [] else
      var n := |items| - 1;
      Keep(items[..n], f) + if f(items[n]) then [items[n]] else []
  }

  /** `[y for x in items for y in f(x)]`. */
  function FlatMap<T, U>(items: seq<T>, f: T -> seq<U>): seq<U> {
    if items == [] then [] else
      var n := |items| - 1;
      FlatMap(items[..n], f) + f(items[n])
  }

  lemma FlatMapStep<T, U>(items: seq<T>, f: T -> seq<U>, i: nat)
    requires i < |items|
    ensures FlatMap(items[..i + 1], f) == FlatMap(items[..i], f) + f(items[i])
  {
    assert items[..i + 1][..i] == items[..i];
  }

  lemma FlatMapOne<T, U>(x: T, f: T -> seq<U>)
    ensures FlatMap([x], f) == f(x)
  {
    assert [x][..0] == [];
    assert FlatMap([], f) == [];
  }

  lemma {:induction false} KeepNone<T>(items: seq<T>, f: T -> bool)
    requires forall i :: 0 <= i < |items| ==> !f(items[i])
    ensures Keep(items, f) == []
  {
    if items != [] { KeepNone(items[..|items| - 1], f); }
  }

  /** A condition met at one place only keeps that one item. */
  lemma {:induction false} KeepOne<T>(items: seq<T>, f: T -> bool, at: nat)
    requires at < |items| && forall i :: 0 <= i < |items| ==> (f(items[i]) <==> i == at)
    ensures Keep(items, f) == [items[at]]
  {
    var n := |items| - 1;
    if at == n {
      KeepNone(items[..n], f);
    } else {
      KeepOne(items[..n], f, at);
    }
  }

  lemma {:induction false} FlatMapMember<T, U>(items: seq<T>, f: T -> seq<U>, y: U)
    ensures y in FlatMap(items, f) <==> exists x :: x in items && y in f(x)
  {
    if items != [] {
      var n := |items| - 1;
      FlatMapMember(items[..n], f, y);
      assert items == items[..n] + [items[n]];
      assert items[n] in items;
    }
  }

  lemma {:induction false} KeepMember<T>(items: seq<T>, f: T -> bool, x: T)
    ensures x in Keep(items, f) <==> x in items && f(x)
  {
    if items != [] {
      var n := |items| - 1;
      KeepMember(items[..n], f, x);
      assert items == items[..n] + [items[n]];
    }
  }

  ghost predicate DistinctBy<T, K(!new)>(s: seq<T>, id: T -> K) {
    forall i, j :: 0 <= i < j < |s| ==> id(s[i]) != id(s[j])
  }

  lemma {:induction false} KeepDistinct<T, K(!new)>(items: seq<T>, f: T -> bool, id: T -> K)
    requires DistinctBy(items, id)
    ensures DistinctBy(Keep(items, f), id)
  {
    if items != [] {
      var n := |items| - 1;
      KeepDistinct(items[..n], f, id);
      var kept := Keep(items[..n], f);
      forall i | 0 <= i < |kept| ensures id(kept[i]) != id(items[n]) {
        KeepMember(items[..n], f, kept[i]);
        assert kept[i] in items[..n];
      }
    }
  }

  lemma DistinctConcat<T, K(!new)>(a: seq<T>, b: seq<T>, id: T -> K)
    requires DistinctBy(a, id) && DistinctBy(b, id)
    requires forall x, y :: x in a && y in b ==> id(x) != id(y)
    ensures DistinctBy(a + b, id)
  {
    forall i, j | 0 <= i < j < |a + b| ensures id((a + b)[i]) != id((a + b)[j]) {
      if i < |a| <= j { assert a[i] in a && b[j - |a|] in b; }
    }
  }

  /** Rows of different items differ, and so do the rows of one item. */
  ghost predicate Separates<T(!new), U(!new), K(!new)>(items: seq<T>, f: T -> seq<U>, id: U -> K) {
    && (forall i :: 0 <= i < |items| ==> DistinctBy(f(items[i]), id))
    && (forall i, j, y, z :: 0 <= i < j < |items| && y in f(items[i]) && z in f(items[j]) ==> id(y) != id(z))
  }

  lemma {:induction false} FlatMapDistinct<T(!new), U(!new), K(!new)>(items: seq<T>, f: T -> seq<U>, id: U -> K)
    requires Separates(items, f, id)
    ensures DistinctBy(FlatMap(items, f), id)
  {
    if items != [] {
      var n := |items| - 1;
      FlatMapDistinct(items[..n], f, id);
      forall y, z | y in FlatMap(items[..n], f) && z in f(items[n]) ensures id(y) != id(z) {
        FlatMapMember(items[..n], f, y);
        var x :| x in items[..n] && y in f(x);
        var i :| 0 <= i < n && items[..n][i] == x;
        assert items[i] == x;
      }
      DistinctConcat(FlatMap(items[..n], f), f(items[n]), id);
    }
  }

  // ----- Integrity checks -----

  ghost predicate NonEmpty(values: seq<Option<string>>) {
    forall i :: 0 <= i < |values| ==> values[i].Some? && values[i].value != ""
  }

  ghost predicate Unique<K(!new)>(values: seq<Option<K>>) {
    forall i, j :: 0 <= i < j < |values| && values[i].Some? ==> values[i] != values[j]
  }

  ghost predicate NoOrphans(child: seq<Option<string>>, parent: seq<Option<string>>) {
    forall i :: 0 <= i < |child| && child[i].Some? ==> child[i] in parent
  }

  ghost predicate Indexed(values: seq<Option<int>>) {
    forall i :: 0 <= i < |values| ==> values[i].Some? && values[i].value >= 0
  }

  method CheckNonEmpty(values: seq<Option<string>>) returns (ok: bool)
    ensures ok <==> NonEmpty(values)
  {
    for i := 0 to |values|
      invariant NonEmpty(values[..i])
    {
      if values[i].None? || values[i].value == "" { return false; }
      assert values[..i + 1] == values[..i] + [values[i]];
    }
    assert values[..|values|] == values;
    ok := true;
  }

  method CheckUnique<K(!new,==)>(values: seq<Option<K>>) returns (ok: bool)
    ensures ok <==> Unique(values)
  {
    var seen: set<K> := {};
    for i := 0 to |values|
      invariant forall j, k :: 0 <= j < k < i && values[j].Some? ==> values[j] != values[k]
      invariant forall v :: v in seen <==> Some(v) in values[..i]
    {
      assert values[..i + 1] == values[..i] + [values[i]];
      if values[i].Some? {
        if values[i].value in seen {
          var j :| 0 <= j < i && values[..i][j] == values[i];
          assert values[j] == values[i];
          return false;
        }
        forall j | 0 <= j < i && values[j].Some? ensures values[j] != values[i] {
          assert values[..i][j] == values[j];
        }
        seen := seen + {values[i].value};
      }
    }
    ok := true;
  }

  method CheckNoOrphans(child: seq<Option<string>>, parent: seq<Option<string>>) returns (ok: bool)
    ensures ok <==> NoOrphans(child, parent)
  {
    for i := 0 to |child|
      invariant forall j :: 0 <= j < i && child[j].Some? ==> child[j] in parent
    {
      if child[i].Some? && child[i] !in parent { return false; }
    }
    ok := true;
  }

  method CheckIndexed(values: seq<Option<int>>) returns (ok: bool)
    ensures ok <==> Indexed(values)
  {
    for i := 0 to |values|
      invariant forall j :: 0 <= j < i ==> values[j].Some? && values[j].value >= 0
    {
      if values[i].None? || values[i].value < 0 { return false; }
    }
    ok := true;
  }

  // ----- Lookup dictionaries -----

  /** `{key: i for i, key in enumerate(keys)}` on unique keys. */
  ghost predicate IndexOf<K(!new)>(index: map<Option<K>, nat>, keys: seq<Option<K>>) {
    && (forall k :: k in index ==> index[k] < |keys| && keys[index[k]] == k)
    && (forall i :: 0 <= i < |keys| ==> keys[i] in index)
  }

  method BuildIndex<K(!new,==)>(keys: seq<Option<K>>) returns (index: map<Option<K>, nat>)
    ensures IndexOf(index, keys)
  {
    index := map[];
    for i := 0 to |keys|
      invariant forall k :: k in index ==> index[k] < i && keys[index[k]] == k
      invariant forall j :: 0 <= j < i ==> keys[j] in index
    {
      index := index[keys[i] := i];
    }
  }

  /** `setdefault(key, []).append(i)`: the positions of every key, in order. */
  ghost function Positions<K(!new)>(keys: seq<Option<K>>, k: Option<K>): seq<nat> {
    if keys == [] then [] else
      var n := |keys| - 1;
      Positions(keys[..n], k) + if keys[n] == k then [n] else []
  }

  method BuildGroups<K(!new,==)>(keys: seq<Option<K>>) returns (groups: map<Option<K>, seq<nat>>)
    ensures forall k :: Positions(keys, k) == if k in groups then groups[k] else []
  {
    groups := map[];
    for i := 0 to |keys|
      invariant forall k :: Positions(keys[..i], k) == if k in groups then groups[k] else []
    {
      ghost var before := groups;
      var prior := if keys[i] in groups then groups[keys[i]] else [];
      assert keys[..i + 1][..i] == keys[..i];
      groups := groups[keys[i] := prior + [i]];
      forall k ensures Positions(keys[..i + 1], k) == if k in groups then groups[k] else [] {
        assert Positions(keys[..i], k) == if k in before then before[k] else [];
      }
    }
    assert keys[..|keys|] == keys;
  }

  lemma {:induction false} PositionsInRange<K(!new)>(keys: seq<Option<K>>, k: Option<K>)
    ensures forall i :: 0 <= i < |Positions(keys, k)| ==> Positions(keys, k)[i] < |keys|
  {
    if keys != [] { PositionsInRange(keys[..|keys| - 1], k); }
  }

  ghost function At<T>(items: seq<T>, at: seq<nat>): seq<T>
    requires forall i :: 0 <= i < |at| ==> at[i] < |items|
  {
    seq(|at|, i requires 0 <= i < |at| => items[at[i]])
  }

  /** The grouped positions pick the items with that key. */
  lemma {:induction false} PositionsKeep<T, K(!new)>(items: seq<T>, keys: seq<Option<K>>, k: Option<K>, f: T -> bool)
    requires |keys| == |items| && forall i :: 0 <= i < |items| ==> (f(items[i]) <==> keys[i] == k)
    ensures forall i :: 0 <= i < |Positions(keys, k)| ==> Positions(keys, k)[i] < |items|
    ensures At(items, Positions(keys, k)) == Keep(items, f)
  {
    PositionsInRange(keys, k);
    if items != [] {
      var n := |items| - 1;
      PositionsKeep(items[..n], keys[..n], k, f);
      var p := Positions(keys[..n], k);
      PositionsInRange(keys[..n], k);
      assert At(items[..n], p) == At(items, p);
    }
  }
}
