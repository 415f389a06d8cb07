/** `join_wikivoyage_sections`: documents × polygons with the same QID × sections. */
module WikivoyageJoin {
  import opened Wrappers
  import opened JoinIndex
  import opened WikipediaJoin

  ghost function SharesWikidata(wikidata: Option<string>): Polygon -> bool {
    (p: Polygon) => p.wikidata == wikidata
  }

  /** An empty article identifier becomes null in the result. */
  ghost function Cleaned(d: Document): Document {
    if d.articleId == Some("") then d.(articleId := None) else d
  }

  ghost function VoyageRows(polygons: seq<Polygon>, sections: seq<Section>): Document -> seq<Joined> {
    (d: Document) => FlatMap(Keep(polygons, SharesWikidata(d.wikidata)), PolygonRows(Cleaned(d), sections))
  }

  /** Every document, then every polygon with its QID, then every section of the document. */
  ghost function VoyageComprehension(polygons: seq<Polygon>, documents: seq<Document>, sections: seq<Section>): seq<Joined> {
    FlatMap(documents, VoyageRows(polygons, sections))
  }

  function PolygonWikidata(polygons: seq<Polygon>): seq<Option<string>> {
    seq(|polygons|, i requires 0 <= i < |polygons| => polygons[i].wikidata)
  }

  function DocumentWikidata(documents: seq<Document>): seq<Option<string>> {
    seq(|documents|, i requires 0 <= i < |documents| => documents[i].wikidata)
  }

  ghost predicate VoyageKeysIntact(polygons: seq<Polygon>, documents: seq<Document>, sections: seq<Section>) {
    && NonEmpty(PolygonIds(polygons)) && Unique(PolygonIds(polygons))
    && NonEmpty(DocumentKeys(documents, true)) && Unique(DocumentKeys(documents, true))
    && NonEmpty(DocumentWikidata(documents))
    && NonEmpty(SectionIds(sections)) && Unique(SectionIds(sections))
    && NonEmpty(SectionDocuments(sections)) && Indexed(SectionIndexes(sections))
    && NoOrphans(SectionDocuments(sections), DocumentKeys(documents, true))
    && NoOrphans(DocumentWikidata(documents), PolygonWikidata(polygons))
  }

  ghost predicate VoyageSectionAgrees(s: Section, d: Document) {
    && d.wikidata == s.wikidata && d.language == s.language && d.site == s.site
    && d.pageId == s.pageId && d.revisionId == s.revisionId
    && (s.articleId != Some("") ==> d.articleId == s.articleId)
  }

  ghost predicate VoyageSectionsAgree(documents: seq<Document>, sections: seq<Section>) {
    forall s, d :: s in sections && d in documents ==> (d.documentId == s.documentId ==> VoyageSectionAgrees(s, d))
  }

  method CheckVoyageKeys(polygons: seq<Polygon>, documents: seq<Document>, sections: seq<Section>) returns (ok: bool)
    ensures ok <==> VoyageKeysIntact(polygons, documents, sections)
  {
    hide NonEmpty, Unique, NoOrphans, Indexed;
    var a := CheckNonEmpty(PolygonIds(polygons));
    var b := CheckUnique(PolygonIds(polygons));
    var c := CheckNonEmpty(DocumentKeys(documents, true));
    var d := CheckUnique(DocumentKeys(documents, true));
    var e := CheckNonEmpty(DocumentWikidata(documents));
    var f := CheckNonEmpty(SectionIds(sections));
    var g := CheckUnique(SectionIds(sections));
    var h := CheckNonEmpty(SectionDocuments(sections));
    var i := CheckIndexed(SectionIndexes(sections));
    var j := CheckNoOrphans(SectionDocuments(sections), DocumentKeys(documents, true));
    var k := CheckNoOrphans(DocumentWikidata(documents), PolygonWikidata(polygons));
    ok := a && b && c && d && e && f && g && h && i && j && k;
  }

  lemma VoyageSectionLookup(
    polygons: seq<Polygon>, documents: seq<Document>, sections: seq<Section>, index: map<Option<string>, nat>, i: nat)
    requires VoyageKeysIntact(polygons, documents, sections) && i < |sections|
    requires IndexOf(index, DocumentKeys(documents, true))
    ensures var id := sections[i].documentId;
      && id in index && index[id] < |documents|
      && (VoyageSectionAgrees(sections[i], documents[index[id]]) <==>
          forall d :: d in documents ==> (d.documentId == id ==> VoyageSectionAgrees(sections[i], d)))
  {
    hide NonEmpty, Unique, NoOrphans, Indexed, Keep, VoyageSectionAgrees;
    var id := sections[i].documentId;
    LookupSucceeds(SectionDocuments(sections), DocumentKeys(documents, true), index, i);
    OneDocument(documents, true, index, id);
    assert documents[index[id]] in documents;
    assert DocumentKeys(documents, true)[index[id]] == documents[index[id]].documentId;
  }

  /** The comparisons of one section with its document: QIDs literally here. */
  method CompareVoyageSection(s: Section, d: Document) returns (ok: bool)
    ensures ok <==> VoyageSectionAgrees(s, d)
  {
    if d.wikidata != s.wikidata { return false; }
    if d.language != s.language { return false; }
    if d.site != s.site { return false; }
    if d.pageId != s.pageId { return false; }
    if d.revisionId != s.revisionId { return false; }
    ok := s.articleId == Some("") || d.articleId == s.articleId;
  }

  method CheckVoyageSections(
    ghost polygons: seq<Polygon>, documents: seq<Document>, sections: seq<Section>, index: map<Option<string>, nat>)
    returns (ok: bool)
    requires VoyageKeysIntact(polygons, documents, sections) && IndexOf(index, DocumentKeys(documents, true))
    ensures ok <==> VoyageSectionsAgree(documents, sections)
  {
    hide VoyageKeysIntact, VoyageSectionAgrees, IndexOf;
    for i := 0 to |sections|
      invariant VoyageSectionsAgree(documents, sections[..i])
    {
      VoyageSectionLookup(polygons, documents, sections, index, i);
      var s := sections[i];
      assert sections[..i + 1] == sections[..i] + [s];
      var agrees := CompareVoyageSection(s, documents[index[s.documentId]]);
      if !agrees {
        assert s in sections;
        return false;
      }
    }
    assert sections[..|sections|] == sections;
    ok := true;
  }

  /** The rows of one document: the polygons of its QID, then its sections. */
  method JoinDocument(
    polygons: seq<Polygon>, d: Document, sections: seq<Section>,
    byWikidata: map<Option<string>, seq<nat>>, byDocument: map<Option<string>, seq<nat>>)
    returns (rows: seq<Joined>)
    requires forall k :: Positions(PolygonWikidata(polygons), k) == if k in byWikidata then byWikidata[k] else []
    requires forall k :: Positions(SectionDocuments(sections), k) == if k in byDocument then byDocument[k] else []
    ensures rows == VoyageRows(polygons, sections)(d)
  {
    var cleaned := if d.articleId == Some("") then d.(articleId := None) else d;
    assert cleaned == Cleaned(d);
    hide Cleaned;
    var at := if d.wikidata in byWikidata then byWikidata[d.wikidata] else [];
    assert at == Positions(PolygonWikidata(polygons), d.wikidata);
    PositionsKeep(polygons, PolygonWikidata(polygons), d.wikidata, SharesWikidata(d.wikidata));
    ghost var mine := At(polygons, at);
    hide Positions, Keep, PolygonRows;
    rows := [];
    for k := 0 to |at|
      invariant rows == FlatMap(mine[..k], PolygonRows(Cleaned(d), sections))
    {
      FlatMapStep(mine, PolygonRows(Cleaned(d), sections), k);
      var more := JoinLink(polygons[at[k]], cleaned, sections, byDocument);
      rows := rows + more;
    }
    assert mine[..|at|] == mine;
  }

  /** `join_wikivoyage_sections`. */
  method JoinWikivoyage(polygons: seq<Polygon>, documents: seq<Document>, sections: seq<Section>)
    returns (r: Result<seq<Joined>>)
    ensures r.Ok? <==> VoyageKeysIntact(polygons, documents, sections) && VoyageSectionsAgree(documents, sections)
    ensures r.Ok? ==> r.value == VoyageComprehension(polygons, documents, sections)
  {
    hide VoyageKeysIntact, VoyageSectionsAgree, IndexOf, Positions, VoyageRows;
    var keysOk := CheckVoyageKeys(polygons, documents, sections);
    if !keysOk { return Err("join keys are inconsistent"); }
    var byId := BuildIndex(DocumentKeys(documents, true));
    var sectionsOk := CheckVoyageSections(polygons, documents, sections, byId);
    if !sectionsOk { return Err("section identity mismatch"); }
    var byWikidata := BuildGroups(PolygonWikidata(polygons));
    var byDocument := BuildGroups(SectionDocuments(sections));
    var result: seq<Joined> := [];
    for i := 0 to |documents|
      invariant result == FlatMap(documents[..i], VoyageRows(polygons, sections))
    {
      var rows := JoinDocument(polygons, documents[i], sections, byWikidata, byDocument);
      FlatMapStep(documents, VoyageRows(polygons, sections), i);
      result := result + rows;
    }
    assert documents[..|documents|] == documents;
    r := Ok(result);
  }

  // ----- Consequences -----

  lemma RowsOfVoyage(polygons: seq<Polygon>, sections: seq<Section>, d: Document, r: Joined)
    ensures r in VoyageRows(polygons, sections)(d) <==>
      && r.document == Cleaned(d) && r.polygon in polygons && r.polygon.wikidata == d.wikidata
      && r.section in sections && r.section.documentId == d.documentId
  {
    FlatMapMember(Keep(polygons, SharesWikidata(d.wikidata)), PolygonRows(Cleaned(d), sections), r);
    KeepMember(polygons, SharesWikidata(d.wikidata), r.polygon);
    forall p { RowsOfPolygon(p, Cleaned(d), sections, r); }
  }

  /** A row is in the join exactly when its polygon has the QID of a document and its section
      belongs to that document. */
  lemma VoyageMeaning(polygons: seq<Polygon>, documents: seq<Document>, sections: seq<Section>, r: Joined)
    ensures r in VoyageComprehension(polygons, documents, sections) <==>
      && r.polygon in polygons && r.section in sections
      && exists d :: (d in documents && r.document == Cleaned(d) && r.polygon.wikidata == d.wikidata
        && r.section.documentId == d.documentId)
  {
    FlatMapMember(documents, VoyageRows(polygons, sections), r);
    forall d { RowsOfVoyage(polygons, sections, d, r); }
  }

  /** What an accepted join guarantees of each of its rows; the article identifier of the
      result is never the empty text. */
  lemma VoyageGuarantees(polygons: seq<Polygon>, documents: seq<Document>, sections: seq<Section>, r: Joined)
    returns (d: Document)
    requires VoyageKeysIntact(polygons, documents, sections) && VoyageSectionsAgree(documents, sections)
    requires r in VoyageComprehension(polygons, documents, sections)
    ensures d in documents && r.document.(articleId := d.articleId) == d && r.document.articleId != Some("")
    ensures r.document.articleId == d.articleId || (d.articleId == Some("") && r.document.articleId.None?)
    ensures Given(r.polygon.polygonId) && Given(r.document.documentId) && Given(r.document.wikidata)
    ensures Given(r.section.sectionId) && r.section.sectionIndex.Some? && r.section.sectionIndex.value >= 0
    ensures r.polygon.wikidata == r.document.wikidata == r.section.wikidata
    ensures r.section.documentId == r.document.documentId && r.section.language == r.document.language
    ensures r.section.site == r.document.site && r.section.pageId == r.document.pageId
    ensures r.section.revisionId == r.document.revisionId && r.section.articleId in {Some(""), d.articleId}
  {
    d := DocumentOf(polygons, documents, sections, r);
    hide VoyageKeysIntact, VoyageComprehension;
    GivenVoyageKeys(polygons, documents, sections, r.polygon, d, r.section);
    VoyageAgreement(documents, sections, d, r.section);
  }

  lemma DocumentOf(polygons: seq<Polygon>, documents: seq<Document>, sections: seq<Section>, r: Joined) returns (d: Document)
    requires r in VoyageComprehension(polygons, documents, sections)
    ensures d in documents && r.document == Cleaned(d) && r.polygon.wikidata == d.wikidata
    ensures r.polygon in polygons && r.section in sections && r.section.documentId == d.documentId
  {
    VoyageMeaning(polygons, documents, sections, r);
    hide VoyageComprehension, Cleaned;
    d :| d in documents && r.document == Cleaned(d) && r.polygon.wikidata == d.wikidata
      && r.section.documentId == d.documentId;
  }

  lemma VoyageAgreement(documents: seq<Document>, sections: seq<Section>, d: Document, s: Section)
    requires VoyageSectionsAgree(documents, sections) && d in documents && s in sections && s.documentId == d.documentId
    ensures s.wikidata == d.wikidata && s.language == d.language && s.site == d.site
    ensures s.pageId == d.pageId && s.revisionId == d.revisionId && s.articleId in {Some(""), d.articleId}
  {
    assert VoyageSectionAgrees(s, d);
  }

  lemma GivenVoyageKeys(
    polygons: seq<Polygon>, documents: seq<Document>, sections: seq<Section>, p: Polygon, d: Document, s: Section)
    requires VoyageKeysIntact(polygons, documents, sections) && p in polygons && d in documents && s in sections
    ensures Given(p.polygonId) && Given(d.documentId) && Given(d.wikidata) && Given(s.sectionId)
    ensures s.sectionIndex.Some? && s.sectionIndex.value >= 0
  {
    hide Unique, NoOrphans;
    var i :| 0 <= i < |polygons| && polygons[i] == p;
    assert PolygonIds(polygons)[i] == p.polygonId;
    var j :| 0 <= j < |documents| && documents[j] == d;
    assert DocumentKeys(documents, true)[j] == d.documentId && DocumentWikidata(documents)[j] == d.wikidata;
    var k :| 0 <= k < |sections| && sections[k] == s;
    assert SectionIds(sections)[k] == s.sectionId && SectionIndexes(sections)[k] == s.sectionIndex;
  }

  ghost function PolygonId(): Polygon -> Option<string> {
    (p: Polygon) => p.polygonId
  }

  lemma DocumentRowsDistinct(polygons: seq<Polygon>, sections: seq<Section>, d: Document)
    requires NonEmpty(PolygonIds(polygons)) && Unique(PolygonIds(polygons))
    requires NonEmpty(SectionIds(sections)) && Unique(SectionIds(sections))
    ensures DistinctBy(VoyageRows(polygons, sections)(d), RowId())
  {
    forall i, j | 0 <= i < j < |polygons| ensures polygons[i].polygonId != polygons[j].polygonId {
      assert PolygonIds(polygons)[i] != PolygonIds(polygons)[j];
    }
    var mine := Keep(polygons, SharesWikidata(d.wikidata));
    var f := PolygonRows(Cleaned(d), sections);
    KeepDistinct(polygons, SharesWikidata(d.wikidata), PolygonId());
    hide PolygonRows;
    forall i | 0 <= i < |mine| ensures DistinctBy(f(mine[i]), RowId()) {
      SectionRowsDistinct(mine[i], Cleaned(d), sections);
    }
    forall i, j, y, z | 0 <= i < j < |mine| && y in f(mine[i]) && z in f(mine[j]) ensures RowId()(y) != RowId()(z) {
      RowsOfPolygon(mine[i], Cleaned(d), sections, y);
      RowsOfPolygon(mine[j], Cleaned(d), sections, z);
      assert PolygonId()(mine[i]) != PolygonId()(mine[j]);
    }
    FlatMapDistinct(mine, f, RowId());
  }

  /** The integrity checks leave no polygon with the same section twice. */
  lemma VoyageNoDuplicateRows(polygons: seq<Polygon>, documents: seq<Document>, sections: seq<Section>)
    requires VoyageKeysIntact(polygons, documents, sections)
    ensures DistinctBy(VoyageComprehension(polygons, documents, sections), RowId())
  {
    hide NonEmpty, Unique, NoOrphans, Indexed, DistinctBy, VoyageRows;
    var f := VoyageRows(polygons, sections);
    forall i | 0 <= i < |documents| ensures DistinctBy(f(documents[i]), RowId()) {
      DocumentRowsDistinct(polygons, sections, documents[i]);
    }
    forall i, j, y, z | 0 <= i < j < |documents| && y in f(documents[i]) && z in f(documents[j])
      ensures RowId()(y) != RowId()(z)
    {
      DocumentsSeparate(polygons, documents, sections, i, j, y, z);
    }
    FlatMapDistinct(documents, f, RowId());
  }

  lemma DocumentsSeparate(
    polygons: seq<Polygon>, documents: seq<Document>, sections: seq<Section>, i: nat, j: nat, y: Joined, z: Joined)
    requires VoyageKeysIntact(polygons, documents, sections) && i < j < |documents|
    requires y in VoyageRows(polygons, sections)(documents[i]) && z in VoyageRows(polygons, sections)(documents[j])
    ensures RowId()(y) != RowId()(z)
  {
    hide NonEmpty, Unique, NoOrphans, Indexed, VoyageRows;
    RowsOfVoyage(polygons, sections, documents[i], y);
    RowsOfVoyage(polygons, sections, documents[j], z);
    if RowId()(y) == RowId()(z) { SameSection(sections, y.section, z.section); }
    DocumentsDiffer(documents, i, j);
  }

  lemma DocumentsDiffer(documents: seq<Document>, i: nat, j: nat)
    requires NonEmpty(DocumentKeys(documents, true)) && Unique(DocumentKeys(documents, true)) && i < j < |documents|
    ensures documents[i].documentId != documents[j].documentId
  {
    assert DocumentKeys(documents, true)[i] != DocumentKeys(documents, true)[j];
  }
}
