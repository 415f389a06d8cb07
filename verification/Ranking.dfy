/** Finite sets, strict sort keys, sorted enumerations and quota-best subsets.

    The samplers order rows and polygons by a tuple that no two of them share.
    A tuple is a `Key` here; `Sort` is the one ascending enumeration of a set and
    `IsBest` says what a quota-bounded heap keeps of it. */
module Ranking {

  lemma SubsetSize<T>(a: set<T>, b: set<T>)
    requires a <= b
    ensures |a| <= |b|
    ensures |a| == |b| ==> a == b
  {
    assert b == a + (b - a);
  }

  // ----- Keys -----

  datatype Key = Key(first: int, second: int, third: int)

  predicate Less(a: Key, b: Key) {
    || a.first < b.first
    || (a.first == b.first && a.second < b.second)
    || (a.first == b.first && a.second == b.second && a.third < b.third)
  }

  ghost predicate Distinguishes<T(!new)>(key: T -> Key, s: set<T>) {
    forall x, y :: x in s && y in s && x != y ==> key(x) != key(y)
  }

  // ----- Sorted enumeration -----

  ghost predicate Ascending<T>(s: seq<T>, key: T -> Key) {
    forall i, j :: 0 <= i < j < |s| ==> Less(key(s[i]), key(s[j]))
  }

  ghost function Elements<T>(s: seq<T>): set<T> {
    set x | x in s
  }

  ghost predicate IsLeast<T>(m: T, s: set<T>, key: T -> Key) {
    m in s && forall x :: x in s && x != m ==> Less(key(m), key(x))
  }

  lemma {:induction false} LeastExists<T(!new)>(s: set<T>, key: T -> Key)
    requires s != {} && Distinguishes(key, s)
    ensures exists m :: IsLeast(m, s, key)
    decreases |s|
  {
    var x :| x in s;
    var rest := s - {x};
    assert forall y :: y in s && y != x ==> y in rest;
    if rest == {} {
      assert IsLeast(x, s, key);
    } else {
      LeastExists(rest, key);
      var m :| IsLeast(m, rest, key);
      assert IsLeast(if Less(key(m), key(x)) then m else x, s, key);
    }
  }

  lemma ConsAscending<T(!new)>(m: T, rest: seq<T>, s: set<T>, key: T -> Key)
    requires IsLeast(m, s, key) && Ascending(rest, key) && Elements(rest) == s - {m}
    requires |rest| == |s - {m}|
    ensures Ascending([m] + rest, key) && Elements([m] + rest) == s && |[m] + rest| == |s|
  {
    forall j | 0 <= j < |rest|
      ensures Less(key(m), key(rest[j]))
    {
      assert rest[j] in Elements(rest);
    }
    var r := [m] + rest;
    forall x ensures x in Elements(r) <==> x in s {
      assert x in r <==> x == m || x in rest;
      assert x in rest <==> x in Elements(rest);
    }
  }

  /** The one ascending enumeration of `s`. */
  ghost function Sort<T(!new)>(s: set<T>, key: T -> Key): (r: seq<T>)
    requires Distinguishes(key, s)
    ensures Ascending(r, key) && Elements(r) == s && |r| == |s|
    decreases |s|
  {
    if s == {} then [] else
      LeastExists(s, key);
      var m :| IsLeast(m, s, key);
      var rest := Sort(s - {m}, key);
      ConsAscending(m, rest, s, key);
      [m] + rest
  }

  lemma {:induction false} AscendingSize<T>(s: seq<T>, key: T -> Key)
    requires Ascending(s, key)
    ensures |Elements(s)| == |s|
  {
    if s != [] {
      AscendingSize(s[1..], key);
      assert Elements(s) == {s[0]} + Elements(s[1..]);
      assert forall i :: 0 <= i < |s[1..]| ==> Less(key(s[0]), key(s[1..][i]));
      assert s[0] !in Elements(s[1..]);
    }
  }

  /** Any ascending list of the same elements is the sorted enumeration. */
  lemma {:induction false} SortUnique<T(!new)>(a: seq<T>, b: seq<T>, key: T -> Key)
    requires Ascending(a, key) && Ascending(b, key) && Elements(a) == Elements(b)
    ensures a == b
  {
    AscendingSize(a, key);
    AscendingSize(b, key);
    if a != [] {
      assert a[0] in Elements(b) && b[0] in Elements(a);
      var i :| 0 <= i < |b| && b[i] == a[0];
      var j :| 0 <= j < |a| && a[j] == b[0];
      assert a[0] == b[0];
      assert Elements(a[1..]) == Elements(a) - {a[0]} by {
        assert forall k :: 0 < k < |a| ==> Less(key(a[0]), key(a[k]));
      }
      assert Elements(b[1..]) == Elements(b) - {b[0]} by {
        assert forall k :: 0 < k < |b| ==> Less(key(b[0]), key(b[k]));
      }
      SortUnique(a[1..], b[1..], key);
      assert a == [a[0]] + a[1..] && b == [b[0]] + b[1..];
    }
  }

  // ----- Quota-best subsets -----

  function Min(a: nat, b: nat): nat {
    if a <= b then a else b
  }

  /** `h` holds the `quota` smallest keys of `s`, or all of `s` when it has fewer. */
  ghost predicate IsBest<T>(h: set<T>, s: set<T>, quota: nat, key: T -> Key) {
    && h <= s
    && |h| == Min(quota, |s|)
    && forall x, y :: x in h && y in s && y !in h ==> Less(key(x), key(y))
  }

  lemma BestUnique<T>(a: set<T>, b: set<T>, s: set<T>, quota: nat, key: T -> Key)
    requires IsBest(a, s, quota, key) && IsBest(b, s, quota, key)
    ensures a == b
  {
    if a != b {
      if a <= b { SubsetSize(a, b); }
      if b <= a { SubsetSize(b, a); }
    }
  }

  /** Offering one new element to a heap with room. */
  lemma BestPush<T>(h: set<T>, s: set<T>, quota: nat, key: T -> Key, x: T)
    requires IsBest(h, s, quota, key) && |h| < quota && x !in s
    ensures h == s
    ensures IsBest(h + {x}, s + {x}, quota, key)
  {
    SubsetSize(h, s);
  }

  /** Offering one new element to a full heap whose worst element is `w`. */
  lemma BestOffer<T(!new)>(h: set<T>, s: set<T>, quota: nat, key: T -> Key, x: T, w: T)
    requires IsBest(h, s, quota, key) && |h| == quota && x !in s
    requires w in h && forall y :: y in h && y != w ==> Less(key(y), key(w))
    requires key(x) != key(w)
    ensures Less(key(x), key(w)) ==> IsBest(h - {w} + {x}, s + {x}, quota, key)
    ensures !Less(key(x), key(w)) ==> IsBest(h, s + {x}, quota, key)
  {
    SubsetSize(h, s);
    if Less(key(x), key(w)) {
      var h' := h - {w} + {x};
      assert |h'| == quota;
    }
  }

  /** Dropping elements that are not among the best leaves the best unchanged. */
  lemma BestOfLedger<T>(h: set<T>, ledger: set<T>, s: set<T>, quota: nat, key: T -> Key)
    requires IsBest(h, s, quota, key) && h <= ledger <= s
    ensures IsBest(h, ledger, quota, key)
  {
    SubsetSize(h, ledger);
    SubsetSize(ledger, s);
  }

  /** The best `quota` elements are exactly the first `quota` in sorted order. */
  lemma BestIsPrefix<T(!new)>(h: set<T>, s: set<T>, quota: nat, key: T -> Key)
    requires Distinguishes(key, s) && IsBest(h, s, quota, key)
    ensures Sort(h, key) == Sort(s, key)[..Min(quota, |s|)]
  {
    PrefixIsBest(s, quota, key);
    var p := Sort(s, key)[..Min(quota, |s|)];
    BestUnique(h, Elements(p), s, quota, key);
    SortUnique(Sort(h, key), p, key);
  }

  lemma PrefixPrecedes<T>(all: seq<T>, n: nat, key: T -> Key, x: T, y: T)
    requires Ascending(all, key) && n <= |all|
    requires x in all[..n] && y in Elements(all) && y !in all[..n]
    ensures Less(key(x), key(y))
  {
    var i :| 0 <= i < n && all[..n][i] == x;
    assert all[i] == x;
    var j :| 0 <= j < |all| && all[j] == y;
  }

  lemma PrefixIsBest<T(!new)>(s: set<T>, quota: nat, key: T -> Key)
    requires Distinguishes(key, s)
    ensures IsBest(Elements(Sort(s, key)[..Min(quota, |s|)]), s, quota, key)
  {
    var all := Sort(s, key);
    var n := Min(quota, |s|);
    var p := all[..n];
    assert Ascending(p, key);
    AscendingSize(p, key);
    forall x, y | x in Elements(p) && y in s && y !in Elements(p)
      ensures Less(key(x), key(y))
    {
      PrefixPrecedes(all, n, key, x, y);
    }
    forall x | x in Elements(p) ensures x in s {
      assert x in all;
      assert x in Elements(all);
    }
  }

  /** The quota-best subset as a value. */
  ghost function Best<T(!new)>(s: set<T>, quota: nat, key: T -> Key): (h: set<T>)
    requires Distinguishes(key, s)
    ensures IsBest(h, s, quota, key)
  {
    PrefixIsBest(s, quota, key);
    Elements(Sort(s, key)[..Min(quota, |s|)])
  }

  /** A larger quota keeps everything a smaller one keeps. */
  lemma BestMonotone<T(!new)>(s: set<T>, small: nat, large: nat, key: T -> Key)
    requires Distinguishes(key, s) && small <= large
    ensures Best(s, small, key) <= Best(s, large, key)
  {
    var all := Sort(s, key);
    var a, b := Min(small, |s|), Min(large, |s|);
    forall x | x in Best(s, small, key)
      ensures x in Best(s, large, key)
    {
      var i :| 0 <= i < a && all[i] == x;
      assert all[..b][i] == x;
    }
  }
}
