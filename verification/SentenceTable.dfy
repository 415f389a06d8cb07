/** Rows of the enriched sentence table, and what the samplers read off them. */
module SentenceTable {
  import opened Wrappers
  import opened FairQueue

  datatype Bucket = Tiny | Small | Medium | Large

  /** An occupied H3 cell. */
  datatype Cell = Cell(index: nat)

  /** What `_cell` makes of a row's latitude and longitude. */
  datatype Coordinates = Missing | InCell(cell: Cell) | Invalid

  /** `bucket` is `None` where `canonical_area_bucket` raises; `payload` stands for the
      columns the samplers only carry along. */
  datatype Row = Row(
    sentenceId: string, polygonId: string, coordinates: Coordinates, bucket: Option<Bucket>, payload: string)

  datatype Metadata = Metadata(bucket: Bucket, cell: Cell)

  /** The seeded hash, as a number, on each kind of name it is applied to. */
  datatype Ranks = Ranks(sentence: string -> nat, polygon: string -> nat, cell: Cell -> nat)

  ghost predicate CollisionFree(ranks: Ranks) {
    Injective(ranks.sentence) && Injective(ranks.polygon) && Injective(ranks.cell)
  }

  predicate Located(r: Row) {
    r.coordinates.InCell?
  }

  /** The per-row checks of the reference. */
  predicate RowAccepted(r: Row) {
    r.polygonId != "" && !r.coordinates.Invalid? && (Located(r) ==> r.bucket.Some?)
  }

  function MetadataOf(r: Row): Metadata
    requires Located(r) && RowAccepted(r)
  {
    Metadata(r.bucket.value, r.coordinates.cell)
  }

  ghost predicate DistinctIds(rows: seq<Row>) {
    forall i, j :: 0 <= i < j < |rows| ==> rows[i].sentenceId != rows[j].sentenceId
  }

  ghost predicate AllAccepted(rows: seq<Row>) {
    forall i :: 0 <= i < |rows| ==> RowAccepted(rows[i])
  }

  /** No polygon is described in two ways. */
  ghost predicate Consistent(rows: seq<Row>)
    requires AllAccepted(rows)
  {
    forall i, j :: 0 <= i < j < |rows| && Located(rows[i]) && Located(rows[j]) && rows[i].polygonId == rows[j].polygonId
      ==> MetadataOf(rows[i]) == MetadataOf(rows[j])
  }

  /** The tables the reference selection accepts. */
  ghost predicate Acceptable(rows: seq<Row>) {
    DistinctIds(rows) && AllAccepted(rows) && Consistent(rows)
  }

  ghost predicate NonEmptyIds(rows: seq<Row>) {
    forall i :: 0 <= i < |rows| ==> rows[i].sentenceId != ""
  }

  // ----- Polygon metadata -----

  ghost function Polygons(rows: seq<Row>): map<string, Metadata>
    requires AllAccepted(rows)
  {
    if rows == [] then map[] else
      var n := |rows| - 1;
      var before := Polygons(rows[..n]);
      if Located(rows[n]) then before[rows[n].polygonId := MetadataOf(rows[n])] else before
  }

  lemma {:induction false} PolygonsLookup(rows: seq<Row>)
    requires AllAccepted(rows) && Consistent(rows)
    ensures forall i :: 0 <= i < |rows| && Located(rows[i]) ==>
      rows[i].polygonId in Polygons(rows) && Polygons(rows)[rows[i].polygonId] == MetadataOf(rows[i])
  {
    if rows != [] {
      PolygonsLookup(rows[..|rows| - 1]);
    }
  }

  lemma {:induction false} PolygonsOccur(rows: seq<Row>, p: string)
    requires AllAccepted(rows) && p in Polygons(rows)
    ensures exists i :: (0 <= i < |rows| && Located(rows[i]) && rows[i].polygonId == p
      && Polygons(rows)[p] == MetadataOf(rows[i]))
  {
    var n := |rows| - 1;
    if !(Located(rows[n]) && rows[n].polygonId == p) {
      PolygonsOccur(rows[..n], p);
    }
  }

  // ----- Strata -----

  /** Positions of the rows in one H3 cell. */
  ghost function Stratum(rows: seq<Row>, c: Cell): set<nat> {
    set i: nat | i < |rows| && rows[i].coordinates == InCell(c)
  }

  ghost function StratumSizes(rows: seq<Row>): Strata<Cell> {
    if rows == [] then map[] else
      var n := |rows| - 1;
      var before := StratumSizes(rows[..n]);
      if Located(rows[n]) then AddRows(before, rows[n].coordinates.cell, 1) else before
  }

  function AddRows(sizes: Strata<Cell>, c: Cell, count: Size): Strata<Cell> {
    sizes[c := (if c in sizes then sizes[c] else 0) + count]
  }

  lemma StratumGrows(rows: seq<Row>, c: Cell)
    requires rows != []
    ensures var n := |rows| - 1;
      Stratum(rows, c) == if rows[n].coordinates == InCell(c) then Stratum(rows[..n], c) + {n} else Stratum(rows[..n], c)
    ensures |rows| - 1 !in Stratum(rows[..|rows| - 1], c)
  {
  }

  lemma {:induction false} SizesAreCounts(rows: seq<Row>, c: Cell)
    ensures c in StratumSizes(rows) <==> Stratum(rows, c) != {}
    ensures c in StratumSizes(rows) ==> StratumSizes(rows)[c] == |Stratum(rows, c)|
  {
    if rows != [] {
      StratumGrows(rows, c);
      SizesAreCounts(rows[..|rows| - 1], c);
    }
  }

  /** How many rows have coordinates. */
  ghost function Eligible(rows: seq<Row>): set<nat> {
    set i: nat | i < |rows| && Located(rows[i])
  }
}
