/** The finalized shards in key order, and their rows as one table. */
module ShardCorpus {
  import opened Wrappers
  import opened SentenceTable

  datatype FinalizedShard = FinalizedShard(shardKey: string, identity: string)

  /** A shard with the immutable rows its identity stands for. */
  datatype Source = Source(shardKey: string, identity: string, rows: seq<Row>)

  // ----- String order on shard keys -----

  predicate LexLess(a: string, b: string) {
    b != "" && (a == "" || a[0] < b[0] || (a[0] == b[0] && LexLess(a[1..], b[1..])))
  }

  /** The first difference decides; a text comes before its own continuations. */
  ghost predicate DiffersAt(a: string, b: string, k: nat) {
    k <= |a| && k < |b| && a[..k] == b[..k] && (k == |a| || a[k] < b[k])
  }

  lemma SameStart(a: string, b: string, k: nat)
    requires DiffersAt(a, b, k)
    ensures k > 0 ==> a[0] == b[0]
  {
    if k > 0 { assert a[..k][0] == b[..k][0]; }
  }

  lemma {:induction false} LexMeaning(a: string, b: string)
    ensures LexLess(a, b) <==> exists k: nat :: DiffersAt(a, b, k)
  {
    if b != "" && a != "" && a[0] == b[0] {
      LexMeaning(a[1..], b[1..]);
      if LexLess(a[1..], b[1..]) {
        var k: nat :| DiffersAt(a[1..], b[1..], k);
        assert a[..k + 1] == [a[0]] + a[1..][..k] && b[..k + 1] == [b[0]] + b[1..][..k];
        assert DiffersAt(a, b, k + 1);
      }
      if k: nat :| DiffersAt(a, b, k) {
        assert k > 0;
        assert a[1..][..k - 1] == a[..k][1..] && b[1..][..k - 1] == b[..k][1..];
        assert DiffersAt(a[1..], b[1..], k - 1);
      }
    } else if b != "" && (a == "" || a[0] < b[0]) {
      assert DiffersAt(a, b, 0);
    } else if k: nat :| DiffersAt(a, b, k) {
      SameStart(a, b, k);
    }
  }

  lemma {:induction false} LexTotal(a: string, b: string)
    ensures LexLess(a, b) || a == b || LexLess(b, a)
    ensures !(LexLess(a, b) && LexLess(b, a)) && !(a == b && LexLess(a, b))
  {
    if a != "" && b != "" && a[0] == b[0] {
      LexTotal(a[1..], b[1..]);
      assert a == [a[0]] + a[1..] && b == [b[0]] + b[1..];
    }
  }

  lemma {:induction false} LexTransitive(a: string, b: string, c: string)
    requires LexLess(a, b) && LexLess(b, c)
    ensures LexLess(a, c)
  {
    if a != "" && a[0] == b[0] == c[0] {
      LexTransitive(a[1..], b[1..], c[1..]);
    }
  }

  ghost predicate AscendingKeys(s: seq<FinalizedShard>) {
    forall i, j :: 0 <= i < j < |s| ==> LexLess(s[i].shardKey, s[j].shardKey)
  }

  ghost predicate SameShards(a: seq<FinalizedShard>, b: seq<FinalizedShard>) {
    forall x :: x in a <==> x in b
  }

  /** Key order leaves one way to list a set of shards. */
  lemma {:induction false} AscendingUnique(a: seq<FinalizedShard>, b: seq<FinalizedShard>)
    requires AscendingKeys(a) && AscendingKeys(b) && SameShards(a, b)
    ensures a == b
  {
    if b != [] { assert b[0] in a; }
    if a != [] {
      assert a[0] in b;
      var i :| 0 <= i < |b| && b[i] == a[0];
      var j :| 0 <= j < |a| && a[j] == b[0];
      LexTotal(a[0].shardKey, b[0].shardKey);
      assert a[0] == b[0];
      forall x ensures x in a[1..] <==> x in b[1..] {
        TailMembers(a, x);
        TailMembers(b, x);
      }
      AscendingUnique(a[1..], b[1..]);
      assert a == [a[0]] + a[1..] && b == [b[0]] + b[1..];
    }
  }

  lemma TailMembers(a: seq<FinalizedShard>, x: FinalizedShard)
    requires AscendingKeys(a) && a != []
    ensures x in a[1..] <==> x in a && x != a[0]
  {
    assert a == [a[0]] + a[1..];
    if x == a[0] && x in a[1..] {
      var i :| 0 <= i < |a[1..]| && a[1..][i] == x;
      LexTotal(a[0].shardKey, a[i + 1].shardKey);
    }
  }

  /** `{item.shard_key: item.identity for item in ordered}`. */
  function ShardMap(s: seq<FinalizedShard>): map<string, string> {
    if s == [] then map[] else
      var last := s[|s| - 1];
      ShardMap(s[..|s| - 1])[last.shardKey := last.identity]
  }

  lemma {:induction false} ShardMapMembers(s: seq<FinalizedShard>, x: FinalizedShard)
    requires AscendingKeys(s)
    ensures x in s <==> x.shardKey in ShardMap(s) && ShardMap(s)[x.shardKey] == x.identity
    ensures x.shardKey in ShardMap(s) ==> exists i :: 0 <= i < |s| && s[i].shardKey == x.shardKey
  {
    if s != [] {
      var n := |s| - 1;
      ShardMapMembers(s[..n], x);
      assert s == s[..n] + [s[n]];
      if x.shardKey in ShardMap(s[..n]) {
        var i :| 0 <= i < n && s[..n][i].shardKey == x.shardKey;
        LexTotal(s[i].shardKey, s[n].shardKey);
      }
    }
  }

  /** Equal identity maps mean equal shard lists. */
  lemma ShardMapDetermines(a: seq<FinalizedShard>, b: seq<FinalizedShard>)
    requires AscendingKeys(a) && AscendingKeys(b) && ShardMap(a) == ShardMap(b)
    ensures a == b
  {
    forall x ensures x in a <==> x in b {
      ShardMapMembers(a, x);
      ShardMapMembers(b, x);
    }
    AscendingUnique(a, b);
  }

  /** `sorted(shards, key=...)`, one insertion at a time. */
  method SortShards(shards: seq<FinalizedShard>) returns (r: Option<seq<FinalizedShard>>)
    ensures r.Some? ==> AscendingKeys(r.value) && SameShards(r.value, shards)
    ensures r.None? <==> exists i, j :: 0 <= i < j < |shards| && shards[i].shardKey == shards[j].shardKey
  {
    var sorted: seq<FinalizedShard> := [];
    for n := 0 to |shards|
      invariant AscendingKeys(sorted) && SameShards(sorted, shards[..n])
      invariant forall i, j :: 0 <= i < j < n ==> shards[i].shardKey != shards[j].shardKey
    {
      var x := shards[n];
      var at := 0;
      while at < |sorted| && LexLess(sorted[at].shardKey, x.shardKey)
        invariant at <= |sorted|
        invariant forall i :: 0 <= i < at ==> LexLess(sorted[i].shardKey, x.shardKey)
      {
        at := at + 1;
      }
      if at < |sorted| && sorted[at].shardKey == x.shardKey {
        assert sorted[at] in shards[..n];
        return None;
      }
      InsertShard(sorted, at, x, shards, n);
      sorted := sorted[..at] + [x] + sorted[at..];
    }
    assert shards[..|shards|] == shards;
    r := Some(sorted);
  }

  lemma InsertMembers(sorted: seq<FinalizedShard>, at: nat, x: FinalizedShard)
    requires at <= |sorted|
    ensures forall y :: y in sorted[..at] + [x] + sorted[at..] <==> y in sorted || y == x
  {
    assert sorted == sorted[..at] + sorted[at..];
  }

  lemma InsertShard(sorted: seq<FinalizedShard>, at: nat, x: FinalizedShard, shards: seq<FinalizedShard>, n: nat)
    requires AscendingKeys(sorted) && at <= |sorted|
    requires n < |shards| && x == shards[n] && SameShards(sorted, shards[..n])
    requires forall i :: 0 <= i < at ==> LexLess(sorted[i].shardKey, x.shardKey)
    requires at < |sorted| ==> !LexLess(sorted[at].shardKey, x.shardKey) && sorted[at].shardKey != x.shardKey
    ensures AscendingKeys(sorted[..at] + [x] + sorted[at..])
    ensures SameShards(sorted[..at] + [x] + sorted[at..], shards[..n + 1])
    ensures forall i :: 0 <= i < n ==> shards[i].shardKey != x.shardKey
  {
    var r := sorted[..at] + [x] + sorted[at..];
    forall i | at <= i < |sorted| ensures LexLess(x.shardKey, sorted[i].shardKey) {
      LexTotal(sorted[at].shardKey, x.shardKey);
      if i > at { LexTransitive(x.shardKey, sorted[at].shardKey, sorted[i].shardKey); }
    }
    InsertMembers(sorted, at, x);
    assert shards[..n + 1] == shards[..n] + [x];
    forall i | 0 <= i < n ensures shards[i].shardKey != x.shardKey {
      assert shards[..n][i] in sorted;
      var k :| 0 <= k < |sorted| && sorted[k] == shards[i];
      LexTotal(sorted[k].shardKey, x.shardKey);
    }
  }

  // ----- The concatenated table -----

  function Flat(corpus: seq<Source>, count: nat): (rows: seq<Row>)
    requires count <= |corpus|
  {
    if count == 0 then [] else Flat(corpus, count - 1) + corpus[count - 1].rows
  }

  function Rows(corpus: seq<Source>): seq<Row> {
    Flat(corpus, |corpus|)
  }

  lemma {:induction false} FlatPrefix(corpus: seq<Source>, j: nat, k: nat)
    requires j <= k <= |corpus|
    ensures Flat(corpus, j) <= Flat(corpus, k)
  {
    if j < k { FlatPrefix(corpus, j, k - 1); }
  }

  /** A row's position in the concatenation is its shard's offset plus its row index. */
  lemma GlobalIndex(corpus: seq<Source>, j: nat, i: nat)
    requires j < |corpus| && i < |corpus[j].rows|
    ensures |Flat(corpus, j)| + i < |Rows(corpus)|
    ensures Rows(corpus)[|Flat(corpus, j)| + i] == corpus[j].rows[i]
  {
    FlatPrefix(corpus, j + 1, |corpus|);
  }

  /** The shard holding global position `g`. */
  ghost function ShardOf(corpus: seq<Source>, count: nat, g: nat): nat
    requires count <= |corpus|
  {
    if count == 0 then 0
    else if g >= |Flat(corpus, count - 1)| then count - 1
    else ShardOf(corpus, count - 1, g)
  }

  lemma {:induction false} ShardOfOffset(corpus: seq<Source>, count: nat, j: nat, g: nat)
    requires j < count <= |corpus| && |Flat(corpus, j)| <= g < |Flat(corpus, j + 1)|
    ensures ShardOf(corpus, count, g) == j
  {
    if j < count - 1 {
      FlatPrefix(corpus, j + 1, count - 1);
      ShardOfOffset(corpus, count - 1, j, g);
    }
  }

  ghost predicate DistinctKeys(corpus: seq<Source>) {
    forall i, j :: 0 <= i < j < |corpus| ==> corpus[i].shardKey != corpus[j].shardKey
  }

  function Resolve(ordered: seq<FinalizedShard>, content: string -> seq<Row>): (r: seq<Source>)
    ensures |r| == |ordered|
    ensures forall i :: 0 <= i < |r| ==> r[i] == Source(ordered[i].shardKey, ordered[i].identity, content(ordered[i].identity))
  {
    seq(|ordered|, i requires 0 <= i < |ordered| =>
      Source(ordered[i].shardKey, ordered[i].identity, content(ordered[i].identity)))
  }

  lemma AscendingIsDistinct(ordered: seq<FinalizedShard>, content: string -> seq<Row>)
    requires AscendingKeys(ordered)
    ensures DistinctKeys(Resolve(ordered, content))
  {
    forall i, j | 0 <= i < j < |ordered| ensures ordered[i].shardKey != ordered[j].shardKey {
      LexTotal(ordered[i].shardKey, ordered[j].shardKey);
    }
  }
}
