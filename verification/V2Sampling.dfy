/** The in-memory V2 selection: the reference the streaming forms must reproduce. */
module V2Sampling {
  import opened Wrappers
  import opened Ranking
  import opened Sums
  import opened FairQueue
  import opened Apportionment
  import opened HeapSchedule
  import opened Queues
  import opened Sorting
  import opened SentenceTable
  import opened Selection

  /** `dict.setdefault(cell, []).append(value)`. */
  function Append<V>(groups: map<Cell, seq<V>>, c: Cell, v: V): map<Cell, seq<V>> {
    groups[c := (if c in groups then groups[c] else []) + [v]]
  }

  /** `groups` lists, cell by cell and without repeats, the members `of(cell)`. */
  ghost predicate GroupsMembers<V(!new)>(groups: map<Cell, seq<V>>, of: Cell -> set<V>) {
    && (forall c :: c in groups <==> of(c) != {})
    && (forall c :: c in groups ==> Lists(groups[c], of(c)))
  }

  ghost predicate Lists<V>(items: seq<V>, s: set<V>) {
    Distinct(items) && Elements(items) == s
  }

  lemma AppendLists<V>(items: seq<V>, s: set<V>, v: V)
    requires Lists(items, s) && v !in s
    ensures Lists(items + [v], s + {v})
  {
    assert forall i :: 0 <= i < |items| ==> items[i] in Elements(items);
    assert Elements(items + [v]) == Elements(items) + {v};
  }

  lemma AppendMember<V(!new)>(groups: map<Cell, seq<V>>, c: Cell, v: V, of: Cell -> set<V>, of': Cell -> set<V>)
    requires GroupsMembers(groups, of) && v !in of(c)
    requires forall d :: of'(d) == if d == c then of(d) + {v} else of(d)
    ensures GroupsMembers(Append(groups, c, v), of')
  {
    var r := Append(groups, c, v);
    var prior := if c in groups then groups[c] else [];
    assert Lists(prior, of(c));
    AppendLists(prior, of(c), v);
  }

  // ----- ordered_polygon_ids -----

  ghost function SmallIn(meta: map<string, Metadata>, seen: set<string>): Cell -> set<string> {
    (c: Cell) => set p | p in CellPolygons(meta, c) && p in seen
  }

  ghost function LargeIn(meta: map<string, Metadata>, seen: set<string>): set<string> {
    set p | p in LargePolygons(meta) && p in seen
  }

  lemma SmallInAll(meta: map<string, Metadata>, groups: map<Cell, seq<string>>)
    requires GroupsMembers(groups, SmallIn(meta, meta.Keys))
    ensures groups.Keys == PolygonCells(meta)
    ensures forall c :: c in groups ==> Lists(groups[c], CellPolygons(meta, c))
  {
    forall c ensures SmallIn(meta, meta.Keys)(c) == CellPolygons(meta, c) {}
    forall c ensures c in PolygonCells(meta) <==> CellPolygons(meta, c) != {} {
      if c in PolygonCells(meta) {
        var p :| p in meta && meta[p].bucket != Large && meta[p].cell == c;
        assert p in CellPolygons(meta, c);
      }
    }
  }

  lemma SeePolygon(meta: map<string, Metadata>, groups: map<Cell, seq<string>>, seen: set<string>, p: string)
    requires GroupsMembers(groups, SmallIn(meta, seen)) && p in meta && p !in seen
    ensures LargeIn(meta, seen + {p}) == LargeIn(meta, seen) + (if meta[p].bucket == Large then {p} else {})
    ensures meta[p].bucket != Large ==>
      GroupsMembers(Append(groups, meta[p].cell, p), SmallIn(meta, seen + {p}))
    ensures meta[p].bucket == Large ==> GroupsMembers(groups, SmallIn(meta, seen + {p}))
  {
    if meta[p].bucket != Large {
      AppendMember(groups, meta[p].cell, p, SmallIn(meta, seen), SmallIn(meta, seen + {p}));
    } else {
      forall c ensures SmallIn(meta, seen + {p})(c) == SmallIn(meta, seen)(c) {}
    }
  }

  /** One pass over the metadata, in whatever order it is iterated. */
  method GroupPolygons(meta: map<string, Metadata>) returns (large: seq<string>, byCell: map<Cell, seq<string>>)
    ensures Lists(large, LargePolygons(meta))
    ensures byCell.Keys == PolygonCells(meta)
    ensures forall c :: c in byCell ==> Lists(byCell[c], CellPolygons(meta, c))
  {
    large, byCell := [], map[];
    var left := meta.Keys;
    ghost var seen: set<string> := {};
    while left != {}
      invariant seen == meta.Keys - left && left <= meta.Keys
      invariant Lists(large, LargeIn(meta, seen))
      invariant GroupsMembers(byCell, SmallIn(meta, seen))
      decreases |left|
    {
      var p :| p in left;
      SeePolygon(meta, byCell, seen, p);
      if meta[p].bucket == Large {
        AppendLists(large, LargeIn(meta, seen), p);
        large := large + [p];
      } else {
        byCell := Append(byCell, meta[p].cell, p);
      }
      left := left - {p};
      seen := seen + {p};
    }
    assert seen == meta.Keys;
    assert LargeIn(meta, meta.Keys) == LargePolygons(meta);
    SmallInAll(meta, byCell);
  }

  /** The full schedule of non-empty queues, through the heap merge. */
  method ScheduleAll<V>(queues: map<Cell, seq<V>>, ranks: Ranks) returns (schedule: seq<Cell>)
    requires CollisionFree(ranks) && forall c :: c in queues ==> queues[c] != []
    ensures schedule == FullSchedule(Lengths(queues), ranks)
  {
    var sizes: map<Cell, int> := map c | c in queues :: |queues[c]|;
    var total := SumValues(sizes);
    assert sizes == Lengths(queues);
    SumNonNegative(sizes);
    var r := WeightedSchedule(sizes, ranks.cell, total);
    if total <= 0 {
      schedule := [];
    } else {
      assert AsStrata(sizes) == Lengths(queues);
      schedule := r.value;
    }
  }

  method OrderedPolygonIds(meta: map<string, Metadata>, ranks: Ranks) returns (r: Result<seq<string>>)
    requires CollisionFree(ranks)
    ensures "" in meta ==> r.Err?
    ensures "" !in meta ==> r == Ok(OrderedPolygons(meta, ranks))
  {
    if "" in meta {
      return Err("polygon_id must be non-empty");
    }
    var large, byCell := GroupPolygons(meta);
    var key := PolygonKey(ranks);
    PolygonKeyDistinguishes(ranks, LargePolygons(meta));
    var head := SortList(large, key);
    forall c | c in byCell ensures Distinguishes(key, Elements(byCell[c])) {
      PolygonKeyDistinguishes(ranks, Elements(byCell[c]));
    }
    var queues := SortGroups(byCell, key);
    assert queues == PolygonQueues(meta, ranks);
    PolygonQueuesNonEmpty(meta, ranks);
    var schedule := ScheduleAll(queues, ranks);
    FullScheduleFits(queues, ranks);
    var tail := Drain(schedule, queues);
    return Ok(head + tail);
  }

  // ----- _ordered_polygons -----

  lemma PolygonsStep(rows: seq<Row>, i: nat)
    requires i < |rows| && AllAccepted(rows[..i]) && RowAccepted(rows[i])
    ensures AllAccepted(rows[..i + 1])
    ensures Polygons(rows[..i + 1]) ==
      if Located(rows[i]) then Polygons(rows[..i])[rows[i].polygonId := MetadataOf(rows[i])] else Polygons(rows[..i])
  {
    assert rows[..i + 1][..i] == rows[..i];
  }

  /** A row agrees with all earlier ones exactly when it agrees with the recorded metadata. */
  lemma ConsistentStep(rows: seq<Row>, i: nat)
    requires i < |rows| && AllAccepted(rows[..i + 1]) && AllAccepted(rows[..i]) && Consistent(rows[..i])
    ensures Consistent(rows[..i + 1]) <==>
      (Located(rows[i]) && rows[i].polygonId in Polygons(rows[..i]) ==>
        Polygons(rows[..i])[rows[i].polygonId] == MetadataOf(rows[i]))
  {
    var before, after := rows[..i], rows[..i + 1];
    assert forall j :: 0 <= j < i ==> after[j] == before[j];
    PolygonsLookup(before);
    if Located(rows[i]) && rows[i].polygonId in Polygons(before) {
      PolygonsOccur(before, rows[i].polygonId);
      var j :| 0 <= j < i && Located(before[j]) && before[j].polygonId == rows[i].polygonId
        && Polygons(before)[rows[i].polygonId] == MetadataOf(before[j]);
      if Consistent(after) {
        assert MetadataOf(after[j]) == MetadataOf(after[i]);
      }
    }
  }

  lemma InconsistentStays(rows: seq<Row>, i: nat)
    requires i <= |rows|
    ensures !AllAccepted(rows[..i]) ==> !AllAccepted(rows)
    ensures AllAccepted(rows) && AllAccepted(rows[..i]) && !Consistent(rows[..i]) ==> !Consistent(rows)
  {
    assert forall j :: 0 <= j < i ==> rows[..i][j] == rows[j];
  }

  /** The checks of one row against the metadata recorded so far. */
  function CheckRow(r: Row, meta: map<string, Metadata>): Result<map<string, Metadata>> {
    if r.polygonId == "" then Err("polygon_id must be non-empty")
    else if r.coordinates.Invalid? then Err("coordinates are invalid")
    else if r.coordinates.Missing? then Ok(meta)
    else if r.bucket.None? then Err("area_bucket is invalid")
    else if r.polygonId in meta && meta[r.polygonId] != Metadata(r.bucket.value, r.coordinates.cell)
    then Err("polygon metadata is inconsistent")
    else Ok(meta[r.polygonId := Metadata(r.bucket.value, r.coordinates.cell)])
  }

  /** One accepted row extends the metadata; a refused one makes the table unacceptable. */
  lemma CheckRowStep(rows: seq<Row>, i: nat, meta: map<string, Metadata>)
    requires i < |rows| && AllAccepted(rows[..i]) && Consistent(rows[..i]) && meta == Polygons(rows[..i])
    ensures CheckRow(rows[i], meta).Ok? ==>
      && AllAccepted(rows[..i + 1]) && Consistent(rows[..i + 1])
      && CheckRow(rows[i], meta).value == Polygons(rows[..i + 1])
    ensures CheckRow(rows[i], meta).Err? ==> !(AllAccepted(rows) && Consistent(rows))
  {
    assert rows[..i + 1][i] == rows[i];
    if RowAccepted(rows[i]) {
      PolygonsStep(rows, i);
      ConsistentStep(rows, i);
      InconsistentStays(rows, i + 1);
    }
  }

  method TablePolygons(rows: seq<Row>) returns (r: Result<map<string, Metadata>>)
    ensures r.Ok? <==> AllAccepted(rows) && Consistent(rows)
    ensures r.Ok? ==> r.value == Polygons(rows) && "" !in r.value
  {
    var meta: map<string, Metadata> := map[];
    for i := 0 to |rows|
      invariant AllAccepted(rows[..i]) && Consistent(rows[..i])
      invariant meta == Polygons(rows[..i]) && "" !in meta
    {
      CheckRowStep(rows, i, meta);
      var checked := CheckRow(rows[i], meta);
      if checked.Err? {
        return Err(checked.message);
      }
      meta := checked.value;
    }
    assert rows[..|rows|] == rows;
    return Ok(meta);
  }

  // ----- _ordered_rows -----

  ghost function StrataOf(rows: seq<Row>): Cell -> set<nat> {
    (c: Cell) => Stratum(rows, c)
  }

  lemma SeeRow(rows: seq<Row>, i: nat, groups: map<Cell, seq<nat>>)
    requires i < |rows| && GroupsMembers(groups, StrataOf(rows[..i]))
    ensures Located(rows[i]) ==>
      GroupsMembers(Append(groups, rows[i].coordinates.cell, i), StrataOf(rows[..i + 1]))
    ensures !Located(rows[i]) ==> GroupsMembers(groups, StrataOf(rows[..i + 1]))
  {
    var before, after := rows[..i], rows[..i + 1];
    assert after[..i] == before;
    forall c ensures StrataOf(after)(c) ==
      if rows[i].coordinates == InCell(c) then StrataOf(before)(c) + {i} else StrataOf(before)(c)
    {
      StratumGrows(after, c);
    }
    if Located(rows[i]) {
      assert i !in StrataOf(before)(rows[i].coordinates.cell);
      AppendMember(groups, rows[i].coordinates.cell, i, StrataOf(before), StrataOf(after));
    }
  }

  method GroupRows(rows: seq<Row>) returns (byStratum: map<Cell, seq<nat>>)
    ensures GroupsMembers(byStratum, StrataOf(rows))
  {
    byStratum := map[];
    for i := 0 to |rows|
      invariant GroupsMembers(byStratum, StrataOf(rows[..i]))
    {
      SeeRow(rows, i, byStratum);
      if Located(rows[i]) {
        byStratum := Append(byStratum, rows[i].coordinates.cell, i);
      }
    }
    assert rows[..|rows|] == rows;
  }

  lemma GroupIsStratum(rows: seq<Row>, groups: map<Cell, seq<nat>>, c: Cell)
    requires GroupsMembers(groups, StrataOf(rows))
    ensures c in groups <==> c in StratumSizes(rows)
    ensures c in groups ==> Distinct(groups[c]) && Elements(groups[c]) == Stratum(rows, c)
  {
    SizesAreCounts(rows, c);
    assert StrataOf(rows)(c) == Stratum(rows, c);
    if c in groups {
      assert Lists(groups[c], StrataOf(rows)(c));
    }
  }

  lemma SortedGroup(rows: seq<Row>, order: map<string, nat>, ranks: Ranks, groups: map<Cell, seq<nat>>, c: Cell)
    requires GroupsMembers(groups, StrataOf(rows)) && c in groups
    ensures Distinct(groups[c]) && Distinguishes(RowKey(rows, order, ranks), Elements(groups[c]))
    ensures Sort(Elements(groups[c]), RowKey(rows, order, ranks)) == SortedRows(Stratum(rows, c), rows, order, ranks)
  {
    GroupIsStratum(rows, groups, c);
    RowKeyDistinguishes(rows, order, ranks, Elements(groups[c]));
  }

  lemma QueuesAreRowQueues(rows: seq<Row>, order: map<string, nat>, ranks: Ranks, queues: map<Cell, seq<nat>>)
    requires forall c :: c in queues <==> c in StratumSizes(rows)
    requires forall c :: c in queues ==> queues[c] == SortedRows(Stratum(rows, c), rows, order, ranks)
    ensures queues == RowQueues(rows, order, ranks)
  {
  }

  method SortRows(rows: seq<Row>, order: map<string, nat>, ranks: Ranks, groups: map<Cell, seq<nat>>)
    returns (queues: map<Cell, seq<nat>>)
    requires forall i :: 0 <= i < |rows| && Located(rows[i]) ==> rows[i].polygonId in order
    requires GroupsMembers(groups, StrataOf(rows))
    ensures queues == RowQueues(rows, order, ranks)
  {
    var key := RowKey(rows, order, ranks);
    forall c | c in groups ensures Distinct(groups[c]) && Distinguishes(key, Elements(groups[c])) {
      SortedGroup(rows, order, ranks, groups, c);
    }
    queues := SortGroups(groups, key);
    forall c ensures c in queues <==> c in StratumSizes(rows) {
      GroupIsStratum(rows, groups, c);
    }
    forall c | c in queues ensures queues[c] == SortedRows(Stratum(rows, c), rows, order, ranks) {
      SortedGroup(rows, order, ranks, groups, c);
    }
    QueuesAreRowQueues(rows, order, ranks, queues);
  }

  method OrderedRowIndexes(rows: seq<Row>, order: map<string, nat>, ranks: Ranks) returns (r: seq<nat>)
    requires CollisionFree(ranks)
    requires forall i :: 0 <= i < |rows| && Located(rows[i]) ==> rows[i].polygonId in order
    ensures r == OrderedRows(rows, order, ranks)
  {
    var groups := GroupRows(rows);
    var queues := SortRows(rows, order, ranks, groups);
    RowQueueLengths(rows, order, ranks);
    var schedule := ScheduleAll(queues, ranks);
    FullScheduleFits(queues, ranks);
    r := Drain(schedule, queues);
  }

  // ----- select_v2_rows -----

  lemma DuplicateStays(rows: seq<Row>, i: nat)
    requires i < |rows| && DistinctIds(rows[..i])
    ensures rows[i].sentenceId in (set k | 0 <= k < i :: rows[k].sentenceId) ==> !DistinctIds(rows)
    ensures rows[i].sentenceId !in (set k | 0 <= k < i :: rows[k].sentenceId) ==> DistinctIds(rows[..i + 1])
  {
    var after := rows[..i + 1];
    assert forall k :: 0 <= k < i ==> after[k] == rows[..i][k];
  }

  /** `len(ids) != len(set(ids))`, one identifier at a time. */
  method HasDistinctIds(rows: seq<Row>) returns (distinct: bool)
    ensures distinct <==> DistinctIds(rows)
  {
    var seen: set<string> := {};
    for i := 0 to |rows|
      invariant seen == set k | 0 <= k < i :: rows[k].sentenceId
      invariant DistinctIds(rows[..i])
    {
      DuplicateStays(rows, i);
      if rows[i].sentenceId in seen {
        return false;
      }
      seen := seen + {rows[i].sentenceId};
    }
    assert rows[..|rows|] == rows;
    return true;
  }

  method Enumerate(order: seq<string>) returns (positions: map<string, nat>)
    ensures positions == Positions(order)
  {
    positions := map[];
    for i := 0 to |order|
      invariant positions == Positions(order[..i])
    {
      positions := positions[order[i] := i];
      assert order[..i + 1][..i] == order[..i];
    }
    assert order[..|order|] == order;
  }

  lemma PolygonOrderCovers(rows: seq<Row>, ranks: Ranks)
    requires CollisionFree(ranks) && AllAccepted(rows) && Consistent(rows)
    ensures forall i :: 0 <= i < |rows| && Located(rows[i]) ==>
      rows[i].polygonId in PolygonOrder(Polygons(rows), ranks)
  {
    PolygonsLookup(rows);
    forall i | 0 <= i < |rows| && Located(rows[i])
      ensures rows[i].polygonId in PolygonOrder(Polygons(rows), ranks)
    {
      OrderedPolygonsComplete(Polygons(rows), ranks, rows[i].polygonId);
      PositionsKeys(OrderedPolygons(Polygons(rows), ranks));
    }
  }

  /** `select_v2_rows`: exactly the acceptable tables are selected from. */
  method SelectRows(rows: seq<Row>, target: int, ranks: Ranks) returns (r: Result<seq<Row>>)
    requires CollisionFree(ranks)
    ensures r.Ok? <==> target >= 1 && Acceptable(rows)
    ensures r.Ok? ==> r.value == SelectedRows(rows, target, ranks)
  {
    if target < 1 {
      return Err("target must be a positive integer");
    }
    var distinct := HasDistinctIds(rows);
    if !distinct {
      return Err("sampling input contains duplicate sentence IDs");
    }
    var meta := TablePolygons(rows);
    if meta.Err? {
      return Err(meta.message);
    }
    var ordered := OrderedPolygonIds(meta.value, ranks);
    var order := Enumerate(ordered.value);
    PolygonOrderCovers(rows, ranks);
    var indexes := OrderedRowIndexes(rows, order, ranks);
    SelectInRange(rows, target, ranks);
    var taken := indexes[..Min(target, |indexes|)];
    assert taken == Select(rows, target, ranks);
    r := Ok(seq(|taken|, i requires 0 <= i < |taken| => rows[taken[i]]));
  }
}
