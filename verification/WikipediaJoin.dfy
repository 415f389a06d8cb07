/** `join_wikipedia_sections`: links × linked document × its sections. */
module WikipediaJoin {
  import opened Wrappers
  import opened JoinIndex
  import opened WikidataValues

  // ----- Tables -----

  /** `details` stands for the columns that are only copied to the result. */
  datatype Polygon = Polygon(polygonId: Option<string>, wikidata: Option<string>, details: string)

  datatype Link = Link(
    project: Option<string>, polygonId: Option<string>, articleId: Option<string>, documentId: Option<string>,
    wikidata: Option<string>, language: Option<string>, pageId: Option<string>, revisionId: Option<string>)

  /** Which key columns the link table has. */
  datatype Links = Links(hasProject: bool, hasArticleId: bool, hasDocumentId: bool, rows: seq<Link>)

  datatype Document = Document(
    documentId: Option<string>, articleId: Option<string>, wikidata: Option<string>, language: Option<string>,
    site: Option<string>, pageId: Option<string>, revisionId: Option<string>, details: string)

  datatype Section = Section(
    sectionId: Option<string>, documentId: Option<string>, articleId: Option<string>, wikidata: Option<string>,
    language: Option<string>, site: Option<string>, pageId: Option<string>, revisionId: Option<string>,
    sectionIndex: Option<int>, details: string)

  /** One output row: every column is a column of one of the three. */
  datatype Joined = Joined(polygon: Polygon, document: Document, section: Section)

  // ----- What the join means -----

  ghost function OfPolygon(id: Option<string>): Polygon -> bool {
    (p: Polygon) => p.polygonId == id
  }

  function DocumentKey(d: Document, byDocument: bool): Option<string> {
    if byDocument then d.documentId else d.articleId
  }

  function LinkKey(l: Link, byDocument: bool): Option<string> {
    if byDocument then l.documentId else l.articleId
  }

  ghost function Linked(key: Option<string>, byDocument: bool): Document -> bool {
    (d: Document) => DocumentKey(d, byDocument) == key
  }

  ghost function OfDocument(id: Option<string>): Section -> bool {
    (s: Section) => s.documentId == id
  }

  ghost function Row(p: Polygon, d: Document): Section -> seq<Joined> {
    (s: Section) => [Joined(p, d, s)]
  }

  ghost function PolygonRows(d: Document, sections: seq<Section>): Polygon -> seq<Joined> {
    (p: Polygon) => FlatMap(Keep(sections, OfDocument(d.documentId)), Row(p, d))
  }

  ghost function DocumentRows(l: Link, polygons: seq<Polygon>, sections: seq<Section>): Document -> seq<Joined> {
    (d: Document) => FlatMap(Keep(polygons, OfPolygon(l.polygonId)), PolygonRows(d, sections))
  }

  ghost function LinkRows(polygons: seq<Polygon>, documents: seq<Document>, sections: seq<Section>, byDocument: bool): Link -> seq<Joined> {
    (l: Link) => FlatMap(Keep(documents, Linked(LinkKey(l, byDocument), byDocument)), DocumentRows(l, polygons, sections))
  }

  /** Every link, then every document with the link's key, then every polygon with its
      polygon id, then every section of the document. */
  ghost function Comprehension(
    polygons: seq<Polygon>, links: seq<Link>, documents: seq<Document>, sections: seq<Section>, byDocument: bool): seq<Joined>
  {
    FlatMap(links, LinkRows(polygons, documents, sections, byDocument))
  }

  // ----- Integrity -----

  ghost function IsWikipedia(): Link -> bool {
    (l: Link) => l.project == Some("wikipedia")
  }

  ghost function OwnLinks(t: Links): seq<Link> {
    if t.hasProject then Keep(t.rows, IsWikipedia()) else t.rows
  }

  ghost predicate ByDocument(t: Links) {
    t.hasDocumentId && !t.hasArticleId
  }

  function PolygonIds(polygons: seq<Polygon>): seq<Option<string>> {
    seq(|polygons|, i requires 0 <= i < |polygons| => polygons[i].polygonId)
  }

  function LinkPolygons(links: seq<Link>): seq<Option<string>> {
    seq(|links|, i requires 0 <= i < |links| => links[i].polygonId)
  }

  function LinkKeys(links: seq<Link>, byDocument: bool): seq<Option<string>> {
    seq(|links|, i requires 0 <= i < |links| => LinkKey(links[i], byDocument))
  }

  function DocumentKeys(documents: seq<Document>, byDocument: bool): seq<Option<string>> {
    seq(|documents|, i requires 0 <= i < |documents| => DocumentKey(documents[i], byDocument))
  }

  function SectionIds(sections: seq<Section>): seq<Option<string>> {
    seq(|sections|, i requires 0 <= i < |sections| => sections[i].sectionId)
  }

  function SectionDocuments(sections: seq<Section>): seq<Option<string>> {
    seq(|sections|, i requires 0 <= i < |sections| => sections[i].documentId)
  }

  function SectionIndexes(sections: seq<Section>): seq<Option<int>> {
    seq(|sections|, i requires 0 <= i < |sections| => sections[i].sectionIndex)
  }

  /** `(polygon, key)` pairs, as the pair check sees them: never null. */
  function Pairs(links: seq<Link>, byDocument: bool): seq<Option<(Option<string>, Option<string>)>> {
    seq(|links|, i requires 0 <= i < |links| => Some((links[i].polygonId, LinkKey(links[i], byDocument))))
  }

  ghost predicate KeysIntact(
    polygons: seq<Polygon>, links: seq<Link>, documents: seq<Document>, sections: seq<Section>, byDocument: bool)
  {
    && NonEmpty(PolygonIds(polygons)) && Unique(PolygonIds(polygons))
    && NonEmpty(LinkPolygons(links)) && NonEmpty(LinkKeys(links, byDocument))
    && NonEmpty(DocumentKeys(documents, true)) && Unique(DocumentKeys(documents, true))
    && NonEmpty(DocumentKeys(documents, false)) && Unique(DocumentKeys(documents, false))
    && NonEmpty(SectionIds(sections)) && Unique(SectionIds(sections))
    && NonEmpty(SectionDocuments(sections)) && Indexed(SectionIndexes(sections))
    && Unique(Pairs(links, byDocument))
    && NoOrphans(LinkPolygons(links), PolygonIds(polygons))
    && NoOrphans(LinkKeys(links, byDocument), DocumentKeys(documents, byDocument))
    && NoOrphans(SectionDocuments(sections), DocumentKeys(documents, true))
  }

  ghost predicate LinkAgrees(l: Link, p: Polygon, d: Document) {
    && WikidataMatch(p.wikidata, l.wikidata) && WikidataMatch(d.wikidata, l.wikidata)
    && d.language == l.language && d.pageId == l.pageId && d.revisionId == l.revisionId
  }

  ghost predicate SectionAgrees(s: Section, d: Document) {
    && WikidataMatch(d.wikidata, s.wikidata) && d.language == s.language && d.site == s.site
    && d.pageId == s.pageId && d.revisionId == s.revisionId
    && (s.articleId != Some("") ==> d.articleId == s.articleId)
  }

  /** Linked rows tell the same about their identity. */
  ghost predicate IdentitiesAgree(
    polygons: seq<Polygon>, links: seq<Link>, documents: seq<Document>, sections: seq<Section>, byDocument: bool)
  {
    LinksAgree(polygons, links, documents, byDocument) && SectionsAgree(documents, sections)
  }

  method CheckKeys(
    polygons: seq<Polygon>, links: seq<Link>, documents: seq<Document>, sections: seq<Section>, byDocument: bool)
    returns (ok: bool)
    ensures ok <==> KeysIntact(polygons, links, documents, sections, byDocument)
  {
    hide NonEmpty, Unique, NoOrphans, Indexed;
    var a := CheckNonEmpty(PolygonIds(polygons));
    var b := CheckUnique(PolygonIds(polygons));
    var c := CheckNonEmpty(LinkPolygons(links));
    var d := CheckNonEmpty(LinkKeys(links, byDocument));
    var e := CheckNonEmpty(DocumentKeys(documents, true));
    var f := CheckUnique(DocumentKeys(documents, true));
    var g := CheckNonEmpty(DocumentKeys(documents, false));
    var h := CheckUnique(DocumentKeys(documents, false));
    var i := CheckNonEmpty(SectionIds(sections));
    var j := CheckUnique(SectionIds(sections));
    var k := CheckNonEmpty(SectionDocuments(sections));
    var l := CheckIndexed(SectionIndexes(sections));
    var m := CheckUnique(Pairs(links, byDocument));
    var n := CheckNoOrphans(LinkPolygons(links), PolygonIds(polygons));
    var o := CheckNoOrphans(LinkKeys(links, byDocument), DocumentKeys(documents, byDocument));
    var p := CheckNoOrphans(SectionDocuments(sections), DocumentKeys(documents, true));
    ok := a && b && c && d && e && f && g && h && i && j && k && l && m && n && o && p;
  }

  // ----- Lookups -----

  /** Nothing else has the key the index leads to. */
  lemma OnlyOne(keys: seq<Option<string>>, index: map<Option<string>, nat>, k: Option<string>, i: nat)
    requires Unique(keys) && IndexOf(index, keys) && k in index && k.Some? && i < |keys|
    ensures index[k] < |keys| && (keys[i] == k <==> i == index[k])
  {
  }

  /** A checked key is found in the dictionary. */
  lemma LookupSucceeds(child: seq<Option<string>>, parent: seq<Option<string>>, index: map<Option<string>, nat>, i: nat)
    requires NonEmpty(child) && NoOrphans(child, parent) && IndexOf(index, parent) && i < |child|
    ensures child[i].Some? && child[i] in index && index[child[i]] < |parent|
  {
  }

  lemma {:induction false} OnePolygon(polygons: seq<Polygon>, index: map<Option<string>, nat>, id: Option<string>)
    requires Unique(PolygonIds(polygons)) && IndexOf(index, PolygonIds(polygons)) && id in index && id.Some?
    ensures index[id] < |polygons| && Keep(polygons, OfPolygon(id)) == [polygons[index[id]]]
    ensures forall p :: p in polygons && p.polygonId == id ==> p == polygons[index[id]]
  {
    forall i | 0 <= i < |polygons| ensures OfPolygon(id)(polygons[i]) <==> i == index[id] {
      OnlyOne(PolygonIds(polygons), index, id, i);
      assert PolygonIds(polygons)[i] == polygons[i].polygonId;
    }
    KeepOne(polygons, OfPolygon(id), index[id]);
  }

  lemma {:induction false} OneDocument(documents: seq<Document>, byDocument: bool, index: map<Option<string>, nat>, key: Option<string>)
    requires Unique(DocumentKeys(documents, byDocument)) && IndexOf(index, DocumentKeys(documents, byDocument))
    requires key in index && key.Some?
    ensures index[key] < |documents| && Keep(documents, Linked(key, byDocument)) == [documents[index[key]]]
    ensures forall d :: d in documents && DocumentKey(d, byDocument) == key ==> d == documents[index[key]]
  {
    forall i | 0 <= i < |documents| ensures Linked(key, byDocument)(documents[i]) <==> i == index[key] {
      OnlyOne(DocumentKeys(documents, byDocument), index, key, i);
      assert DocumentKeys(documents, byDocument)[i] == DocumentKey(documents[i], byDocument);
    }
    KeepOne(documents, Linked(key, byDocument), index[key]);
  }

  lemma LinkLookups(
    polygons: seq<Polygon>, links: seq<Link>, documents: seq<Document>, sections: seq<Section>, byDocument: bool,
    polygonIndex: map<Option<string>, nat>, documentIndex: map<Option<string>, nat>, i: nat)
    requires KeysIntact(polygons, links, documents, sections, byDocument) && i < |links|
    requires IndexOf(polygonIndex, PolygonIds(polygons)) && IndexOf(documentIndex, DocumentKeys(documents, byDocument))
    ensures var l := links[i]; var key := LinkKey(l, byDocument);
      && l.polygonId in polygonIndex && l.polygonId.Some? && polygonIndex[l.polygonId] < |polygons|
      && key in documentIndex && key.Some? && documentIndex[key] < |documents|
      && Keep(polygons, OfPolygon(l.polygonId)) == [polygons[polygonIndex[l.polygonId]]]
      && Keep(documents, Linked(key, byDocument)) == [documents[documentIndex[key]]]
      && (forall p :: p in polygons && p.polygonId == l.polygonId ==> p == polygons[polygonIndex[l.polygonId]])
      && (forall d :: d in documents && DocumentKey(d, byDocument) == key ==> d == documents[documentIndex[key]])
  {
    hide NonEmpty, Unique, NoOrphans, Indexed, IndexOf, Keep;
    LookupSucceeds(LinkPolygons(links), PolygonIds(polygons), polygonIndex, i);
    LookupSucceeds(LinkKeys(links, byDocument), DocumentKeys(documents, byDocument), documentIndex, i);
    OnePolygon(polygons, polygonIndex, links[i].polygonId);
    OneDocument(documents, byDocument, documentIndex, LinkKey(links[i], byDocument));
  }

  lemma AgreesEverywhere(
    polygons: seq<Polygon>, links: seq<Link>, documents: seq<Document>, sections: seq<Section>, byDocument: bool,
    polygonIndex: map<Option<string>, nat>, documentIndex: map<Option<string>, nat>, i: nat)
    requires KeysIntact(polygons, links, documents, sections, byDocument) && i < |links|
    requires IndexOf(polygonIndex, PolygonIds(polygons)) && IndexOf(documentIndex, DocumentKeys(documents, byDocument))
    ensures var l := links[i]; var key := LinkKey(l, byDocument);
      && l.polygonId in polygonIndex && polygonIndex[l.polygonId] < |polygons|
      && key in documentIndex && documentIndex[key] < |documents|
      && (LinkAgrees(l, polygons[polygonIndex[l.polygonId]], documents[documentIndex[key]]) <==>
          forall p, d :: p in polygons && d in documents ==>
            (p.polygonId == l.polygonId && DocumentKey(d, byDocument) == key ==> LinkAgrees(l, p, d)))
  {
    hide KeysIntact, LinkAgrees, Keep;
    LinkLookups(polygons, links, documents, sections, byDocument, polygonIndex, documentIndex, i);
    var l := links[i];
    var p, d := polygons[polygonIndex[l.polygonId]], documents[documentIndex[LinkKey(l, byDocument)]];
    assert p in polygons && d in documents;
    assert p.polygonId == PolygonIds(polygons)[polygonIndex[l.polygonId]];
    assert DocumentKey(d, byDocument) == DocumentKeys(documents, byDocument)[documentIndex[LinkKey(l, byDocument)]];
  }

  ghost predicate LinksAgree(polygons: seq<Polygon>, links: seq<Link>, documents: seq<Document>, byDocument: bool) {
    forall l, p, d :: l in links && p in polygons && d in documents ==>
      (p.polygonId == l.polygonId && DocumentKey(d, byDocument) == LinkKey(l, byDocument) ==> LinkAgrees(l, p, d))
  }

  ghost predicate SectionsAgree(documents: seq<Document>, sections: seq<Section>) {
    forall s, d :: s in sections && d in documents ==> (d.documentId == s.documentId ==> SectionAgrees(s, d))
  }

  /** The comparisons of one link with its polygon and its document. */
  method CompareLink(l: Link, p: Polygon, d: Document) returns (ok: bool)
    ensures ok <==> LinkAgrees(l, p, d)
  {
    if !WikidataMatch(p.wikidata, l.wikidata) { return false; }
    if !WikidataMatch(d.wikidata, l.wikidata) { return false; }
    if d.language != l.language { return false; }
    if d.pageId != l.pageId { return false; }
    ok := d.revisionId == l.revisionId;
  }

  /** The comparisons of one section with its document. */
  method CompareSection(s: Section, d: Document) returns (ok: bool)
    ensures ok <==> SectionAgrees(s, d)
  {
    if !WikidataMatch(d.wikidata, s.wikidata) { return false; }
    if d.language != s.language { return false; }
    if d.site != s.site { return false; }
    if d.pageId != s.pageId { return false; }
    if d.revisionId != s.revisionId { return false; }
    ok := s.articleId == Some("") || d.articleId == s.articleId;
  }

  /** The identity loop over the links. */
  method CheckLinks(
    polygons: seq<Polygon>, links: seq<Link>, documents: seq<Document>, ghost sections: seq<Section>, byDocument: bool,
    polygonIndex: map<Option<string>, nat>, documentIndex: map<Option<string>, nat>)
    returns (ok: bool)
    requires KeysIntact(polygons, links, documents, sections, byDocument)
    requires IndexOf(polygonIndex, PolygonIds(polygons)) && IndexOf(documentIndex, DocumentKeys(documents, byDocument))
    ensures ok <==> LinksAgree(polygons, links, documents, byDocument)
  {
    hide KeysIntact, LinkAgrees, IndexOf;
    for i := 0 to |links|
      invariant LinksAgree(polygons, links[..i], documents, byDocument)
    {
      AgreesEverywhere(polygons, links, documents, sections, byDocument, polygonIndex, documentIndex, i);
      var l := links[i];
      assert links[..i + 1] == links[..i] + [l];
      var p, d := polygons[polygonIndex[l.polygonId]], documents[documentIndex[LinkKey(l, byDocument)]];
      var agrees := CompareLink(l, p, d);
      if !agrees {
        assert l in links;
        return false;
      }
    }
    assert links[..|links|] == links;
    ok := true;
  }

  lemma SectionLookup(
    polygons: seq<Polygon>, links: seq<Link>, documents: seq<Document>, sections: seq<Section>, byDocument: bool,
    index: map<Option<string>, nat>, i: nat)
    requires KeysIntact(polygons, links, documents, sections, byDocument) && i < |sections|
    requires IndexOf(index, DocumentKeys(documents, true))
    ensures var id := sections[i].documentId;
      && id in index && index[id] < |documents|
      && (SectionAgrees(sections[i], documents[index[id]]) <==>
          forall d :: d in documents ==> (d.documentId == id ==> SectionAgrees(sections[i], d)))
  {
    hide NonEmpty, Unique, NoOrphans, Indexed, Keep, SectionAgrees;
    var id := sections[i].documentId;
    LookupSucceeds(SectionDocuments(sections), DocumentKeys(documents, true), index, i);
    OneDocument(documents, true, index, id);
    assert documents[index[id]] in documents;
    assert DocumentKeys(documents, true)[index[id]] == documents[index[id]].documentId;
  }

  /** The identity loop over the sections. */
  method CheckSections(
    ghost polygons: seq<Polygon>, ghost links: seq<Link>, documents: seq<Document>, sections: seq<Section>,
    ghost byDocument: bool, index: map<Option<string>, nat>)
    returns (ok: bool)
    requires KeysIntact(polygons, links, documents, sections, byDocument) && IndexOf(index, DocumentKeys(documents, true))
    ensures ok <==> SectionsAgree(documents, sections)
  {
    hide KeysIntact, SectionAgrees, IndexOf;
    for i := 0 to |sections|
      invariant SectionsAgree(documents, sections[..i])
    {
      SectionLookup(polygons, links, documents, sections, byDocument, index, i);
      var s := sections[i];
      assert sections[..i + 1] == sections[..i] + [s];
      var agrees := CompareSection(s, documents[index[s.documentId]]);
      if !agrees {
        assert s in sections;
        return false;
      }
    }
    assert sections[..|sections|] == sections;
    ok := true;
  }

  // ----- The join -----

  /** The rows of one link through the dictionaries. */
  method JoinLink(p: Polygon, d: Document, sections: seq<Section>, groups: map<Option<string>, seq<nat>>)
    returns (rows: seq<Joined>)
    requires forall k :: Positions(SectionDocuments(sections), k) == if k in groups then groups[k] else []
    ensures rows == PolygonRows(d, sections)(p)
  {
    var at := if d.documentId in groups then groups[d.documentId] else [];
    assert at == Positions(SectionDocuments(sections), d.documentId);
    PositionsKeep(sections, SectionDocuments(sections), d.documentId, OfDocument(d.documentId));
    ghost var mine := At(sections, at);
    hide Positions, Keep;
    rows := [];
    for k := 0 to |at|
      invariant rows == FlatMap(mine[..k], Row(p, d))
    {
      FlatMapStep(mine, Row(p, d), k);
      rows := rows + [Joined(p, d, sections[at[k]])];
    }
    assert mine[..|at|] == mine;
  }

  lemma LinkRowsLookup(
    polygons: seq<Polygon>, links: seq<Link>, documents: seq<Document>, sections: seq<Section>, byDocument: bool,
    polygonIndex: map<Option<string>, nat>, documentIndex: map<Option<string>, nat>, i: nat)
    requires KeysIntact(polygons, links, documents, sections, byDocument) && i < |links|
    requires IndexOf(polygonIndex, PolygonIds(polygons)) && IndexOf(documentIndex, DocumentKeys(documents, byDocument))
    ensures var l := links[i]; var key := LinkKey(l, byDocument);
      && l.polygonId in polygonIndex && polygonIndex[l.polygonId] < |polygons|
      && key in documentIndex && documentIndex[key] < |documents|
      && LinkRows(polygons, documents, sections, byDocument)(l)
        == PolygonRows(documents[documentIndex[key]], sections)(polygons[polygonIndex[l.polygonId]])
  {
    LinkLookups(polygons, links, documents, sections, byDocument, polygonIndex, documentIndex, i);
    hide KeysIntact, IndexOf, Keep, FlatMap, PolygonRows;
    var l := links[i];
    var p, d := polygons[polygonIndex[l.polygonId]], documents[documentIndex[LinkKey(l, byDocument)]];
    FlatMapOne(d, DocumentRows(l, polygons, sections));
    FlatMapOne(p, PolygonRows(d, sections));
  }

  method JoinAll(
    polygons: seq<Polygon>, links: seq<Link>, documents: seq<Document>, sections: seq<Section>, byDocument: bool,
    polygonIndex: map<Option<string>, nat>, documentIndex: map<Option<string>, nat>)
    returns (result: seq<Joined>)
    requires KeysIntact(polygons, links, documents, sections, byDocument)
    requires IndexOf(polygonIndex, PolygonIds(polygons)) && IndexOf(documentIndex, DocumentKeys(documents, byDocument))
    ensures result == Comprehension(polygons, links, documents, sections, byDocument)
  {
    hide KeysIntact, IndexOf, Positions, LinkRows, PolygonRows;
    var groups := BuildGroups(SectionDocuments(sections));
    result := [];
    for i := 0 to |links|
      invariant result == FlatMap(links[..i], LinkRows(polygons, documents, sections, byDocument))
    {
      LinkRowsLookup(polygons, links, documents, sections, byDocument, polygonIndex, documentIndex, i);
      var l := links[i];
      var rows := JoinLink(
        polygons[polygonIndex[l.polygonId]], documents[documentIndex[LinkKey(l, byDocument)]], sections, groups);
      FlatMapStep(links, LinkRows(polygons, documents, sections, byDocument), i);
      result := result + rows;
    }
    assert links[..|links|] == links;
  }

  /** The rows of this project, when the table tells. */
  method SelectOwn(table: Links) returns (links: seq<Link>)
    ensures links == OwnLinks(table)
  {
    if !table.hasProject { return table.rows; }
    links := [];
    for i := 0 to |table.rows|
      invariant links == Keep(table.rows[..i], IsWikipedia())
    {
      assert table.rows[..i + 1][..i] == table.rows[..i];
      if table.rows[i].project == Some("wikipedia") { links := links + [table.rows[i]]; }
    }
    assert table.rows[..|table.rows|] == table.rows;
  }

  /** `join_wikipedia_sections`: refused exactly when a check fails, and otherwise the nested
      comprehension; no lookup misses. */
  method JoinWikipedia(polygons: seq<Polygon>, table: Links, documents: seq<Document>, sections: seq<Section>)
    returns (r: Result<seq<Joined>>)
    ensures r.Ok? <==>
      && (table.hasArticleId || table.hasDocumentId)
      && KeysIntact(polygons, OwnLinks(table), documents, sections, ByDocument(table))
      && IdentitiesAgree(polygons, OwnLinks(table), documents, sections, ByDocument(table))
    ensures r.Ok? ==> r.value == Comprehension(polygons, OwnLinks(table), documents, sections, ByDocument(table))
  {
    hide KeysIntact, IndexOf, Comprehension;
    if !table.hasArticleId && !table.hasDocumentId { return Err("article_id is missing"); }
    var links := SelectOwn(table);
    var byDocument := table.hasDocumentId && !table.hasArticleId;
    var keysOk := CheckKeys(polygons, links, documents, sections, byDocument);
    if !keysOk { return Err("join keys are inconsistent"); }
    var polygonIndex := BuildIndex(PolygonIds(polygons));
    var documentIndex := BuildIndex(DocumentKeys(documents, byDocument));
    var linksOk := CheckLinks(polygons, links, documents, sections, byDocument, polygonIndex, documentIndex);
    if !linksOk { return Err("link identity mismatch"); }
    var byId := BuildIndex(DocumentKeys(documents, true));
    var sectionsOk := CheckSections(polygons, links, documents, sections, byDocument, byId);
    if !sectionsOk { return Err("section identity mismatch"); }
    var rows := JoinAll(polygons, links, documents, sections, byDocument, polygonIndex, documentIndex);
    r := Ok(rows);
  }

  // ----- Consequences -----

  /** What identifies an output row. */
  ghost function RowId(): Joined -> (Option<string>, Option<string>) {
    (r: Joined) => (r.polygon.polygonId, r.section.sectionId)
  }

  ghost function SectionId(): Section -> Option<string> {
    (s: Section) => s.sectionId
  }

  lemma RowsOfPolygon(p: Polygon, d: Document, sections: seq<Section>, r: Joined)
    ensures r in PolygonRows(d, sections)(p) <==>
      r.polygon == p && r.document == d && r.section in sections && r.section.documentId == d.documentId
  {
    FlatMapMember(Keep(sections, OfDocument(d.documentId)), Row(p, d), r);
    KeepMember(sections, OfDocument(d.documentId), r.section);
    if r in PolygonRows(d, sections)(p) {
      var s :| s in Keep(sections, OfDocument(d.documentId)) && r in Row(p, d)(s);
      assert r == Joined(p, d, s);
    }
    if r == Joined(p, d, r.section) { assert r in Row(p, d)(r.section); }
  }

  lemma RowsOfLink(polygons: seq<Polygon>, documents: seq<Document>, sections: seq<Section>, byDocument: bool, l: Link, r: Joined)
    ensures r in LinkRows(polygons, documents, sections, byDocument)(l) <==>
      && r.polygon in polygons && r.polygon.polygonId == l.polygonId
      && r.document in documents && DocumentKey(r.document, byDocument) == LinkKey(l, byDocument)
      && r.section in sections && r.section.documentId == r.document.documentId
  {
    var key := LinkKey(l, byDocument);
    FlatMapMember(Keep(documents, Linked(key, byDocument)), DocumentRows(l, polygons, sections), r);
    KeepMember(documents, Linked(key, byDocument), r.document);
    forall d ensures r in DocumentRows(l, polygons, sections)(d) <==>
      && r.polygon in polygons && r.polygon.polygonId == l.polygonId && r.document == d
      && r.section in sections && r.section.documentId == d.documentId
    {
      FlatMapMember(Keep(polygons, OfPolygon(l.polygonId)), PolygonRows(d, sections), r);
      KeepMember(polygons, OfPolygon(l.polygonId), r.polygon);
      forall p { RowsOfPolygon(p, d, sections, r); }
    }
  }

  /** A row is in the join exactly when a link connects its polygon and its document, and its
      section belongs to the document. */
  lemma JoinMeaning(
    polygons: seq<Polygon>, links: seq<Link>, documents: seq<Document>, sections: seq<Section>, byDocument: bool, r: Joined)
    ensures r in Comprehension(polygons, links, documents, sections, byDocument) <==>
      && r.polygon in polygons && r.document in documents && r.section in sections
      && r.section.documentId == r.document.documentId
      && exists l :: (l in links && l.polygonId == r.polygon.polygonId
        && LinkKey(l, byDocument) == DocumentKey(r.document, byDocument))
  {
    FlatMapMember(links, LinkRows(polygons, documents, sections, byDocument), r);
    forall l { RowsOfLink(polygons, documents, sections, byDocument, l, r); }
  }

  ghost predicate Given(value: Option<string>) {
    value.Some? && value != Some("")
  }

  /** What an accepted join guarantees of each of its rows: keys are given, and the link, the
      document and the section tell the same about the article. */
  lemma JoinGuarantees(polygons: seq<Polygon>, table: Links, documents: seq<Document>, sections: seq<Section>, r: Joined)
    returns (l: Link)
    requires KeysIntact(polygons, OwnLinks(table), documents, sections, ByDocument(table))
    requires IdentitiesAgree(polygons, OwnLinks(table), documents, sections, ByDocument(table))
    requires r in Comprehension(polygons, OwnLinks(table), documents, sections, ByDocument(table))
    ensures l in table.rows && (table.hasProject ==> l.project == Some("wikipedia"))
    ensures l.polygonId == r.polygon.polygonId && Given(r.polygon.polygonId)
    ensures if table.hasArticleId || !table.hasDocumentId
      then l.articleId == r.document.articleId else l.documentId == r.document.documentId
    ensures r.section.documentId == r.document.documentId && Given(r.document.documentId) && Given(r.document.articleId)
    ensures Given(r.section.sectionId) && r.section.sectionIndex.Some? && r.section.sectionIndex.value >= 0
    ensures WikidataMatch(r.polygon.wikidata, l.wikidata) && WikidataMatch(r.document.wikidata, l.wikidata)
    ensures WikidataMatch(r.document.wikidata, r.section.wikidata)
    ensures l.language == r.document.language == r.section.language && r.document.site == r.section.site
    ensures l.pageId == r.document.pageId == r.section.pageId
    ensures l.revisionId == r.document.revisionId == r.section.revisionId
    ensures r.section.articleId in {Some(""), r.document.articleId}
  {
    var links, byDocument := OwnLinks(table), ByDocument(table);
    JoinMeaning(polygons, links, documents, sections, byDocument, r);
    l :| l in links && l.polygonId == r.polygon.polygonId && LinkKey(l, byDocument) == DocumentKey(r.document, byDocument);
    if table.hasProject { KeepMember(table.rows, IsWikipedia(), l); }
    GivenKeys(polygons, links, documents, sections, byDocument, r);
    hide KeysIntact, Comprehension, WikidataMatch, Keep;
    assert LinkAgrees(l, r.polygon, r.document) && SectionAgrees(r.section, r.document);
  }

  lemma GivenKeys(
    polygons: seq<Polygon>, links: seq<Link>, documents: seq<Document>, sections: seq<Section>, byDocument: bool, r: Joined)
    requires KeysIntact(polygons, links, documents, sections, byDocument)
    requires r.polygon in polygons && r.document in documents && r.section in sections
    ensures Given(r.polygon.polygonId) && Given(r.document.documentId) && Given(r.document.articleId)
    ensures Given(r.section.sectionId) && r.section.sectionIndex.Some? && r.section.sectionIndex.value >= 0
  {
    hide Unique, NoOrphans;
    var i :| 0 <= i < |polygons| && polygons[i] == r.polygon;
    assert PolygonIds(polygons)[i] == r.polygon.polygonId;
    var j :| 0 <= j < |documents| && documents[j] == r.document;
    assert DocumentKeys(documents, true)[j] == r.document.documentId && DocumentKeys(documents, false)[j] == r.document.articleId;
    var k :| 0 <= k < |sections| && sections[k] == r.section;
    assert SectionIds(sections)[k] == r.section.sectionId && SectionIndexes(sections)[k] == r.section.sectionIndex;
  }

  lemma SectionRowsDistinct(p: Polygon, d: Document, sections: seq<Section>)
    requires NonEmpty(SectionIds(sections)) && Unique(SectionIds(sections))
    ensures DistinctBy(PolygonRows(d, sections)(p), RowId())
  {
    forall i, j | 0 <= i < j < |sections| ensures sections[i].sectionId != sections[j].sectionId {
      assert SectionIds(sections)[i] != SectionIds(sections)[j];
    }
    var mine := Keep(sections, OfDocument(d.documentId));
    KeepDistinct(sections, OfDocument(d.documentId), SectionId());
    forall i, j, y, z | 0 <= i < j < |mine| && y in Row(p, d)(mine[i]) && z in Row(p, d)(mine[j])
      ensures RowId()(y) != RowId()(z)
    {
      assert SectionId()(mine[i]) != SectionId()(mine[j]);
    }
    FlatMapDistinct(mine, Row(p, d), RowId());
  }

  lemma SameSection(sections: seq<Section>, a: Section, b: Section)
    requires NonEmpty(SectionIds(sections)) && Unique(SectionIds(sections))
    requires a in sections && b in sections && a.sectionId == b.sectionId
    ensures a == b
  {
    var i :| 0 <= i < |sections| && sections[i] == a;
    var j :| 0 <= j < |sections| && sections[j] == b;
    assert SectionIds(sections)[i] == SectionIds(sections)[j];
  }

  lemma SameDocument(documents: seq<Document>, a: Document, b: Document)
    requires NonEmpty(DocumentKeys(documents, true)) && Unique(DocumentKeys(documents, true))
    requires a in documents && b in documents && a.documentId == b.documentId
    ensures a == b
  {
    var i :| 0 <= i < |documents| && documents[i] == a;
    var j :| 0 <= j < |documents| && documents[j] == b;
    assert DocumentKeys(documents, true)[i] == DocumentKeys(documents, true)[j];
  }

  /** The integrity checks leave no polygon with the same section twice. */
  lemma NoDuplicateRows(
    polygons: seq<Polygon>, links: seq<Link>, documents: seq<Document>, sections: seq<Section>, byDocument: bool)
    requires KeysIntact(polygons, links, documents, sections, byDocument)
    ensures DistinctBy(Comprehension(polygons, links, documents, sections, byDocument), RowId())
  {
    var f := LinkRows(polygons, documents, sections, byDocument);
    var polygonIndex := SomeIndex(PolygonIds(polygons));
    var documentIndex := SomeIndex(DocumentKeys(documents, byDocument));
    forall i | 0 <= i < |links| ensures DistinctBy(f(links[i]), RowId()) {
      LinkRowsLookup(polygons, links, documents, sections, byDocument, polygonIndex, documentIndex, i);
      SectionRowsDistinct(
        polygons[polygonIndex[links[i].polygonId]], documents[documentIndex[LinkKey(links[i], byDocument)]], sections);
    }
    hide NonEmpty, Unique, NoOrphans, Indexed, DistinctBy, LinkRows, IndexOf;
    forall i, j, y, z | 0 <= i < j < |links| && y in f(links[i]) && z in f(links[j]) ensures RowId()(y) != RowId()(z) {
      RowsOfLink(polygons, documents, sections, byDocument, links[i], y);
      RowsOfLink(polygons, documents, sections, byDocument, links[j], z);
      if RowId()(y) == RowId()(z) {
        SameSection(sections, y.section, z.section);
        SameDocument(documents, y.document, z.document);
      }
      PairsDiffer(links, byDocument, i, j);
    }
    FlatMapDistinct(links, f, RowId());
  }

  lemma PairsDiffer(links: seq<Link>, byDocument: bool, i: nat, j: nat)
    requires Unique(Pairs(links, byDocument)) && i < j < |links|
    ensures links[i].polygonId != links[j].polygonId || LinkKey(links[i], byDocument) != LinkKey(links[j], byDocument)
  {
    assert Pairs(links, byDocument)[i] != Pairs(links, byDocument)[j];
  }

  /** Some dictionary of the keys. */
  ghost function SomeIndex(keys: seq<Option<string>>): (index: map<Option<string>, nat>)
    ensures IndexOf(index, keys)
  {
    if keys == [] then map[] else SomeIndex(keys[..|keys| - 1])[keys[|keys| - 1] := |keys| - 1]
  }
}
