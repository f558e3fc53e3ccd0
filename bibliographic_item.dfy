/**
 * `IsoBibliographicItem`: the bibliographic record of an ISO-style standard,
 * the two derivations that turn it into an "all parts" or an undated
 * reference while keeping a copy of its former self as a relation, the
 * derivation of the root `id` attribute, and the rendering to XML.
 */
module BibliographicItems {
  import opened Wrappers
  import opened Seqs
  import opened Text
  import opened Xml
  import opened LocalizedTitles
  import opened DocumentIds
  import opened Classification

  /** A link of a given type ("src", "obp", "rss", ...); its rendering belongs to the unmodelled `TypedUri`. */
  datatype TypedUri = TypedUri(linkType: string, content: string)

  /** A contributor, given by the nodes its roles render to and the nodes the contributor itself renders to. */
  datatype Contribution = Contribution(roles: seq<Node>, contacts: seq<Node>)

  /** A typed relation to another document; the derivations add ones that carry a copy of a whole record. */
  datatype Relation = Relation(relationType: string, identifier: Option<string>, url: Option<string>, bibitem: Option<Record>)

  /**
   * The value of a record: what a deep copy of it holds. Collaborators whose
   * contents the core never inspects (dates, abstracts, status, copyright,
   * workgroup, contributor roles and contacts) are held as the XML nodes
   * they render to.
   */
  datatype Record = Record(
    fetched: Option<string>,
    docidentifier: seq<DocId>,
    edition: Option<string>,
    title: seq<TitleValue>,
    docType: string,
    status: Node,
    workgroup: Option<Node>,
    ics: seq<Ics>,
    link: seq<TypedUri>,
    language: seq<string>,
    script: seq<string>,
    dates: seq<Node>,
    abstracts: seq<Node>,
    contributors: seq<Contribution>,
    copyright: Option<Node>,
    relations: seq<Relation>,
    idAttribute: bool,
    allParts: bool)

  /** How the collaborators whose `to_xml` is not modelled render: links, relations and classification codes. */
  datatype Renderers = Renderers(link: TypedUri -> Node, relation: Relation -> Node, ics: Ics -> Node)

  /** `to_xml`'s options: only `note` is recognised. */
  datatype RenderOptions = RenderOptions(note: Option<string>)

  const PartOf := "partOf"
  const Instance := "instance"
  const NotePrefix := "ISO DATE: "

  predicate IsDoi(d: DocId) {
    d.idType == Some("DOI")
  }

  /** Some identifier is not a DOI: `makeid` has one to work from. */
  predicate HasNonDoi(ds: seq<DocId>) {
    exists k :: 0 <= k < |ds| && !IsDoi(ds[k])
  }

  /** The id string `makeid` starts from: the identifier with `:` replaced by `-`, or "IEV" for the IEV project. */
  function BaseId(d: DocId): (s: string)
    ensures ':' !in s
    ensures d.projectNumber == Some("IEV") ==> s == "IEV"
    ensures d.projectNumber != Some("IEV") ==> |s| == |d.id| && forall i :: 0 <= i < |s| ==> s[i] == (if d.id[i] == ':' then '-' else d.id[i])
  {
    if d.projectNumber == Some("IEV") then "IEV" else ReplaceChar(d.id, ':', '-')
  }

  /**
   * `makeid(nil, true)`: nil when the id attribute is disabled; otherwise the
   * base id of the first identifier that is not a DOI, stripped.
   */
  function MakeId(idAttribute: bool, ds: seq<DocId>): (r: Option<string>)
    requires idAttribute ==> HasNonDoi(ds)
    ensures r.None? <==> !idAttribute
  {
    if !idAttribute then None
    else
      var k := FirstWhere(ds, d => !IsDoi(d));
      Some(Strip(BaseId(ds[k.value])))
  }

  /** The first non-DOI identifier is the one the id is made from, and the `id` attribute is its id without spaces. */
  lemma MakeIdUsesFirstNonDoi(ds: seq<DocId>, k: nat)
    requires k < |ds| && !IsDoi(ds[k]) && forall j :: 0 <= j < k ==> IsDoi(ds[j])
    ensures MakeId(true, ds) == Some(Strip(BaseId(ds[k])))
    ensures forall docType: string ::
              XmlAttrs(docType, true, ds) == [Attr("type", docType), Attr("id", RemoveChar(Strip(BaseId(ds[k])), ' '))]
  {
    FirstWhereIs(ds, d => !IsDoi(d), k);
  }

  /** `xml_attrs(type)`: the record type, then the id with every space removed unless the id attribute is disabled. */
  function XmlAttrs(docType: string, idAttribute: bool, ds: seq<DocId>): (attrs: seq<Attr>)
    requires idAttribute ==> HasNonDoi(ds)
    ensures |attrs| == (if idAttribute then 2 else 1) && attrs[0] == Attr("type", docType)
    ensures idAttribute ==> attrs[1] == Attr("id", RemoveChar(MakeId(true, ds).value, ' '))
  {
    [Attr("type", docType)] + (if idAttribute then [Attr("id", RemoveChar(MakeId(idAttribute, ds).value, ' '))] else [])
  }

  /**
   * The root attributes: `type` always comes first; an `id` follows exactly
   * when the id attribute is enabled, even when it is empty, and it holds
   * neither a space nor a colon.
   */
  lemma RootAttributes(docType: string, idAttribute: bool, ds: seq<DocId>)
    requires idAttribute ==> HasNonDoi(ds)
    ensures var attrs := XmlAttrs(docType, idAttribute, ds);
      && attrs[0] == Attr("type", docType)
      && |attrs| == (if idAttribute then 2 else 1)
      && (idAttribute ==> attrs[1].name == "id" && ' ' !in attrs[1].value && ':' !in attrs[1].value)
  {
    if idAttribute {
      var m := MakeId(idAttribute, ds).value;
      var k := FirstWhere(ds, d => !IsDoi(d)).value;
      assert ':' !in BaseId(ds[k]);
      assert ':' !in m;
      RemoveCharMembers(m, ' ', ':');
    }
  }

  /** Example: "ISO 19115-1:2014" gives the id attribute "ISO19115-1-2014". */
  lemma WorkedExampleId(docType: string, prefix: string, number: string, year: string, ds: seq<DocId>)
    requires prefix == "ISO" && number == "19115-1" && year == "2014"
    requires ds == [DocId(Some("19115"), Some("1"), None, None, None, prefix + " " + number + ":" + year)]
    ensures HasNonDoi(ds)
    ensures XmlAttrs(docType, true, ds) == [Attr("type", docType), Attr("id", prefix + number + "-" + year)]
  {
    var spaced := prefix + " " + number + "-" + year;
    assert !IsDoi(ds[0]);
    MakeIdUsesFirstNonDoi(ds, 0);
    ExampleBaseId(prefix, number, year, ds[0]);
    ExampleStripAndSpaces(prefix, number, year);
  }

  lemma ExampleBaseId(prefix: string, number: string, year: string, d: DocId)
    requires prefix == "ISO" && number == "19115-1" && year == "2014"
    requires d.projectNumber == Some("19115") && d.id == prefix + " " + number + ":" + year
    ensures BaseId(d) == prefix + " " + number + "-" + year
  {
    assert ':' !in prefix + " " + number;
    ReplaceSingle(prefix + " " + number, year, ':', '-');
  }

  lemma ExampleStripAndSpaces(prefix: string, number: string, year: string)
    requires prefix == "ISO" && number == "19115-1" && year == "2014"
    ensures Strip(prefix + " " + number + "-" + year) == prefix + " " + number + "-" + year
    ensures RemoveChar(prefix + " " + number + "-" + year, ' ') == prefix + number + "-" + year
  {
    assert ' ' !in prefix && ' ' !in number + "-" + year;
    RemoveSingle(prefix, number + "-" + year, ' ');
    assert prefix + " " + number + "-" + year == prefix + [' '] + (number + "-" + year);
  }

  /**
   * The record after `to_all_parts`, as the receiver sees it: a `partOf`
   * relation holding a copy of the record as it was (with its id attribute
   * disabled) is appended; every title loses its part; the abstracts are
   * emptied; every identifier loses its part designator and is then marked
   * " (all parts)"; the all-parts flag is set. Nothing else changes.
   */
  function AllPartsOf(r: Record): (a: Record)
    ensures |a.relations| == |r.relations| + 1 && a.relations[..|r.relations|] == r.relations
    ensures a.relations[|r.relations|] == Relation(PartOf, None, None, Some(r.(idAttribute := false)))
    ensures |a.title| == |r.title|
    ensures forall k :: 0 <= k < |r.title| ==> a.title[k] == PartDropped(r.title[k])
    ensures a.abstracts == []
    ensures |a.docidentifier| == |r.docidentifier|
    ensures forall k :: 0 <= k < |r.docidentifier| ==> a.docidentifier[k] == AllPartsMarked(PartRemoved(r.docidentifier[k]))
    ensures a.allParts
    ensures a.(relations := r.relations, title := r.title, abstracts := r.abstracts,
               docidentifier := r.docidentifier, allParts := r.allParts) == r
  {
    r.(relations := r.relations + [Relation(PartOf, None, None, Some(r.(idAttribute := false)))],
       title := Map(r.title, PartDropped),
       abstracts := [],
       docidentifier := Map(Map(r.docidentifier, PartRemoved), AllPartsMarked),
       allParts := true)
  }

  /**
   * The record after `to_most_recent_reference`: an `instance` relation
   * holding a copy of the record as it was (id attribute disabled) is
   * appended; abstracts and dates are emptied; every identifier loses its
   * year. Titles, the id-attribute flag and the all-parts flag are kept.
   */
  function MostRecentOf(r: Record): (m: Record)
    ensures |m.relations| == |r.relations| + 1 && m.relations[..|r.relations|] == r.relations
    ensures m.relations[|r.relations|] == Relation(Instance, None, None, Some(r.(idAttribute := false)))
    ensures m.abstracts == [] && m.dates == []
    ensures |m.docidentifier| == |r.docidentifier|
    ensures forall k :: 0 <= k < |r.docidentifier| ==> m.docidentifier[k] == DateRemoved(r.docidentifier[k])
    ensures m.(relations := r.relations, abstracts := r.abstracts, dates := r.dates,
               docidentifier := r.docidentifier) == r
  {
    r.(relations := r.relations + [Relation(Instance, None, None, Some(r.(idAttribute := false)))],
       abstracts := [],
       dates := [],
       docidentifier := Map(r.docidentifier, DateRemoved))
  }

  /**
   * The copy a derivation stores is rendered without an `id` attribute and
   * still holds the identifiers and relations from before the call, so it
   * does not contain the relation that points at it.
   */
  lemma StoredCopyHasNoId(r: Record)
    ensures var a := AllPartsOf(r).relations[|r.relations|].bibitem.value;
      && XmlAttrs(a.docType, a.idAttribute, a.docidentifier) == [Attr("type", r.docType)]
      && a.docidentifier == r.docidentifier && a.relations == r.relations && a.title == r.title
    ensures var m := MostRecentOf(r).relations[|r.relations|].bibitem.value;
      && XmlAttrs(m.docType, m.idAttribute, m.docidentifier) == [Attr("type", r.docType)]
      && m.docidentifier == r.docidentifier && m.relations == r.relations && m.dates == r.dates
  {
  }

  /**
   * Neither derivation changes any identifier's type, so the receiver's root
   * `id` is still made from the same identifier and can still be made.
   */
  lemma DerivationsKeepIdSource(r: Record)
    ensures FirstWhere(AllPartsOf(r).docidentifier, d => !IsDoi(d)) == FirstWhere(r.docidentifier, d => !IsDoi(d))
    ensures FirstWhere(MostRecentOf(r).docidentifier, d => !IsDoi(d)) == FirstWhere(r.docidentifier, d => !IsDoi(d))
    ensures HasNonDoi(r.docidentifier) ==> HasNonDoi(AllPartsOf(r).docidentifier) && HasNonDoi(MostRecentOf(r).docidentifier)
  {
    SameTypesSameIdSource(r.docidentifier, AllPartsOf(r).docidentifier);
    SameTypesSameIdSource(r.docidentifier, MostRecentOf(r).docidentifier);
  }

  /** Two identifier lists with the same types position by position have their first non-DOI at the same place. */
  lemma SameTypesSameIdSource(ds: seq<DocId>, es: seq<DocId>)
    requires |ds| == |es| && forall k :: 0 <= k < |ds| ==> ds[k].idType == es[k].idType
    ensures FirstWhere(es, d => !IsDoi(d)) == FirstWhere(ds, d => !IsDoi(d))
    ensures HasNonDoi(ds) <==> HasNonDoi(es)
  {
    match FirstWhere(ds, d => !IsDoi(d))
    case None =>
      assert forall k :: 0 <= k < |es| ==> IsDoi(es[k]);
    case Some(k) =>
      FirstWhereIs(es, d => !IsDoi(d), k);
  }

  /** Example: after `to_all_parts` the identifier "ISO 19115-1:2014" reads "ISO 19115:2014 (all parts)". */
  lemma WorkedExampleAllParts(project: string, part: string, date: string, d: DocId)
    requires project == "ISO 19115" && part == "1" && date == ":2014"
    requires d.idType == None && d.id == project + "-" + part + date
    ensures AllPartsMarked(PartRemoved(d)).id == project + date + " (all parts)"
  {
    var s := d.id;
    assert PartAt(s, '-', 9);
    assert forall j :: 0 <= j < 9 ==> s[j] == project[j];
    assert MaximalDigits(s, 10, 1);
    WithoutPartCutsLeftmostMatch(s, '-', 9, 1);
    assert s[..9] + s[11..] == project + date;
  }



  function FetchedXml(fetched: Option<string>): Node {
    Element("fetched", [], if fetched.Some? then [Text(fetched.value)] else [])
  }

  /** A contributor element holds its roles' nodes followed by the contributor's own nodes. */
  function ContributorXml(c: Contribution): (n: Node)
    ensures n.Element? && n.name == "contributor" && n.attrs == []
    ensures |n.children| == |c.roles| + |c.contacts|
    ensures n.children[..|c.roles|] == c.roles && n.children[|c.roles|..] == c.contacts
  {
    Element("contributor", [], c.roles + c.contacts)
  }

  function EditionXml(edition: string): (n: Node)
    ensures n.Element? && n.name == "edition" && n.attrs == [] && n.children == [Text(edition)]
  {
    Element("edition", [], [Text(edition)])
  }

  function LanguageXml(language: string): Node {
    Element("language", [], [Text(language)])
  }

  function ScriptXml(script: string): Node {
    Element("script", [], [Text(script)])
  }

  function AbstractXml(content: Node): Node {
    Element("abstract", [], [content])
  }

  function NoteXml(note: string): Node {
    Element("note", [Attr("format", "text/plain")], [Text(NotePrefix + note)])
  }

  /** The note element is plain text: "ISO DATE: " followed by the note, nothing else. */
  lemma NoteText(note: string)
    ensures var n := NoteXml(note);
      && n.Element? && n.name == "note" && n.attrs == [Attr("format", "text/plain")]
      && |n.children| == 1 && n.children[0].Text?
      && var t := n.children[0].text;
         |t| == |NotePrefix| + |note| && t[..|NotePrefix|] == NotePrefix && t[|NotePrefix|..] == note
  {
  }

  const AllPartsMarker := Element("allparts", [], [Text("true")])

  /** The element for an optional value: one node when present, none when absent. */
  function Optional(n: Option<Node>): (r: seq<Node>)
    ensures |r| == (if n.Some? then 1 else 0)
    ensures n.Some? ==> r[0] == n.value
  {
    if n.Some? then [n.value] else []
  }

  /** The leading children: fetched, titles, links, identifiers, dates and contributors. */
  function LeadingChildren(r: Record, rs: Renderers): (c: seq<Node>)
    ensures |c| == 1 + |r.title| + |r.link| + |r.docidentifier| + |r.dates| + |r.contributors|
  {
    [FetchedXml(r.fetched)]
    + Map(r.title, TitleXml)
    + Map(r.link, rs.link)
    + Map(r.docidentifier, DocIdXml)
    + r.dates
    + Map(r.contributors, ContributorXml)
  }

  /** The middle children: the edition if any, languages, scripts, abstracts, status, copyright if any, relations. */
  function MiddleChildren(r: Record, rs: Renderers): (c: seq<Node>)
    ensures |c| == (if r.edition.Some? then 1 else 0) + |r.language| + |r.script| + |r.abstracts|
                   + 1 + (if r.copyright.Some? then 1 else 0) + |r.relations|
  {
    MiddleHead(r) + MiddleTail(r, rs)
  }

  /** The edition if any, then the languages, scripts and abstracts. */
  function MiddleHead(r: Record): (c: seq<Node>)
    ensures |c| == (if r.edition.Some? then 1 else 0) + |r.language| + |r.script| + |r.abstracts|
  {
    Optional(if r.edition.Some? then Some(EditionXml(r.edition.value)) else None)
    + Map(r.language, LanguageXml)
    + Map(r.script, ScriptXml)
    + Map(r.abstracts, AbstractXml)
  }

  /** The status, then the copyright if any, then the relations. */
  function MiddleTail(r: Record, rs: Renderers): (c: seq<Node>)
    ensures |c| == 1 + (if r.copyright.Some? then 1 else 0) + |r.relations|
  {
    [r.status] + Optional(r.copyright) + Map(r.relations, rs.relation)
  }

  /** The trailing children: the workgroup if any, the note if given, classification codes, the all-parts marker if set, the extra content. */
  function TrailingChildren(r: Record, opts: RenderOptions, rs: Renderers, extra: seq<Node>): (c: seq<Node>)
    ensures |c| == (if r.workgroup.Some? then 1 else 0) + (if opts.note.Some? then 1 else 0)
                   + |r.ics| + (if r.allParts then 1 else 0) + |extra|
  {
    Optional(r.workgroup)
    + Optional(if opts.note.Some? then Some(NoteXml(opts.note.value)) else None)
    + Map(r.ics, rs.ics)
    + Optional(if r.allParts then Some(AllPartsMarker) else None)
    + extra
  }

  /**
   * The children of the `bibitem` element, in `render_xml`'s fixed order:
   * fetched, titles, links, identifiers, dates, contributors, edition if
   * any, languages, scripts, abstracts, status, copyright if any,
   * relations, workgroup if any, the note if the option is given,
   * classification codes, the all-parts marker if the flag is set, and the
   * caller's extra content last. The count says which optional elements
   * appear: each one exactly when its condition holds.
   */
  function Children(r: Record, opts: RenderOptions, rs: Renderers, extra: seq<Node>): (c: seq<Node>)
    ensures |c| == 1 + |r.title| + |r.link| + |r.docidentifier| + |r.dates| + |r.contributors|
                   + (if r.edition.Some? then 1 else 0) + |r.language| + |r.script| + |r.abstracts|
                   + 1 + (if r.copyright.Some? then 1 else 0) + |r.relations|
                   + (if r.workgroup.Some? then 1 else 0) + (if opts.note.Some? then 1 else 0)
                   + |r.ics| + (if r.allParts then 1 else 0) + |extra|
  {
    LeadingChildren(r, rs) + MiddleChildren(r, rs) + TrailingChildren(r, opts, rs, extra)
  }

  /** `render_xml`: the `bibitem` element with the root attributes and the children above. */
  function BibItemXml(r: Record, opts: RenderOptions, rs: Renderers, extra: seq<Node>): (n: Node)
    requires r.idAttribute ==> HasNonDoi(r.docidentifier)
    ensures n.Element? && n.name == "bibitem"
    ensures n.attrs == XmlAttrs(r.docType, r.idAttribute, r.docidentifier)
    ensures n.children == Children(r, opts, rs, extra)
  {
    Element("bibitem", XmlAttrs(r.docType, r.idAttribute, r.docidentifier), Children(r, opts, rs, extra))
  }

  /** The title elements follow `fetched` directly, one per title, in order. */
  lemma TitlesRenderedFirst(r: Record, opts: RenderOptions, rs: Renderers, extra: seq<Node>, k: nat)
    requires k < |r.title|
    ensures Children(r, opts, rs, extra)[0] == FetchedXml(r.fetched)
    ensures Children(r, opts, rs, extra)[1 + k] == TitleXml(r.title[k])
  {
    var l := LeadingChildren(r, rs);
    assert Children(r, opts, rs, extra)[1 + k] == l[1 + k];
  }

  /** The identifier elements follow the titles and links, one per identifier, in order. */
  lemma IdentifiersRenderedAfterLinks(r: Record, opts: RenderOptions, rs: Renderers, extra: seq<Node>, k: nat)
    requires k < |r.docidentifier|
    ensures Children(r, opts, rs, extra)[1 + |r.title| + |r.link| + k] == DocIdXml(r.docidentifier[k])
  {
    var at := 1 + |r.title| + |r.link| + k;
    LeadingIds(r, rs, k);
    assert Children(r, opts, rs, extra)[at] == (LeadingChildren(r, rs) + MiddleChildren(r, rs))[at];
  }

  /** Within the leading segment, the k-th identifier follows fetched, the titles and the links. */
  lemma LeadingIds(r: Record, rs: Renderers, k: nat)
    requires k < |r.docidentifier|
    ensures LeadingChildren(r, rs)[1 + |r.title| + |r.link| + k] == DocIdXml(r.docidentifier[k])
  {
    var upToIds := [FetchedXml(r.fetched)] + Map(r.title, TitleXml) + Map(r.link, rs.link);
    var ids := Map(r.docidentifier, DocIdXml);
    var withIds := upToIds + ids;
    var withDates := withIds + r.dates;
    var l := LeadingChildren(r, rs);
    assert l == withDates + Map(r.contributors, ContributorXml);
    assert l[|upToIds| + k] == withDates[|upToIds| + k] == withIds[|upToIds| + k] == ids[k];
  }

  /** The caller's extra content is rendered last. */
  lemma ExtraRenderedLast(r: Record, opts: RenderOptions, rs: Renderers, extra: seq<Node>)
    ensures var c := Children(r, opts, rs, extra);
      c[|c| - |extra|..] == extra
  {
    var t := TrailingChildren(r, opts, rs, extra);
    assert t[|t| - |extra|..] == extra;
  }

  /** With the all-parts flag set, the marker comes right before the extra content. */
  lemma AllPartsMarkerRendered(r: Record, opts: RenderOptions, rs: Renderers, extra: seq<Node>)
    requires r.allParts
    ensures var c := Children(r, opts, rs, extra);
      c[|c| - |extra| - 1] == AllPartsMarker
  {
  }

  /** A note given in the options is rendered right after the workgroup (if any). */
  lemma NoteRendered(r: Record, opts: RenderOptions, rs: Renderers, extra: seq<Node>)
    requires opts.note.Some?
    ensures Children(r, opts, rs, extra)[|LeadingChildren(r, rs)| + |MiddleChildren(r, rs)| + (if r.workgroup.Some? then 1 else 0)]
            == NoteXml(opts.note.value)
  {
    TrailingNote(r, opts, rs, extra);
    TrailingPlaced(r, opts, rs, extra, if r.workgroup.Some? then 1 else 0);
  }

  /** With a note, the classification codes follow it directly, one node each, in order. */
  lemma IcsRenderedAfterNote(r: Record, opts: RenderOptions, rs: Renderers, extra: seq<Node>, k: nat)
    requires opts.note.Some? && k < |r.ics|
    ensures Children(r, opts, rs, extra)[|LeadingChildren(r, rs)| + |MiddleChildren(r, rs)| + (if r.workgroup.Some? then 1 else 0) + 1 + k]
            == rs.ics(r.ics[k])
  {
    var i := (if r.workgroup.Some? then 1 else 0) + 1 + k;
    TrailingIcs(r, opts, rs, extra, k);
    TrailingPlaced(r, opts, rs, extra, i);
  }

  /** Within the trailing segment the note follows the optional workgroup. */
  lemma TrailingNote(r: Record, opts: RenderOptions, rs: Renderers, extra: seq<Node>)
    requires opts.note.Some?
    ensures TrailingChildren(r, opts, rs, extra)[if r.workgroup.Some? then 1 else 0] == NoteXml(opts.note.value)
  {
    var w := Optional(r.workgroup);
    var note := Optional(Some(NoteXml(opts.note.value)));
    var p1 := w + note;
    var p2 := p1 + Map(r.ics, rs.ics);
    var p3 := p2 + Optional(if r.allParts then Some(AllPartsMarker) else None);
    var t := TrailingChildren(r, opts, rs, extra);
    assert t == p3 + extra;
    assert t[|w|] == p3[|w|] == p2[|w|] == p1[|w|] == note[0];
  }

  /** Within the trailing segment, with a note, the k-th classification code follows the note. */
  lemma TrailingIcs(r: Record, opts: RenderOptions, rs: Renderers, extra: seq<Node>, k: nat)
    requires opts.note.Some? && k < |r.ics|
    ensures TrailingChildren(r, opts, rs, extra)[(if r.workgroup.Some? then 1 else 0) + 1 + k] == rs.ics(r.ics[k])
  {
    var p1 := Optional(r.workgroup) + Optional(Some(NoteXml(opts.note.value)));
    var codes := Map(r.ics, rs.ics);
    var p2 := p1 + codes;
    var p3 := p2 + Optional(if r.allParts then Some(AllPartsMarker) else None);
    var t := TrailingChildren(r, opts, rs, extra);
    assert t == p3 + extra;
    assert t[|p1| + k] == p3[|p1| + k] == p2[|p1| + k] == codes[k];
  }

  /** The middle segment sits right after the leading one. */
  lemma MiddlePlaced(r: Record, opts: RenderOptions, rs: Renderers, extra: seq<Node>, i: nat)
    requires i < |MiddleChildren(r, rs)|
    ensures Children(r, opts, rs, extra)[|LeadingChildren(r, rs)| + i] == MiddleChildren(r, rs)[i]
  {
    var l, m := LeadingChildren(r, rs), MiddleChildren(r, rs);
    assert Children(r, opts, rs, extra)[|l| + i] == (l + m)[|l| + i];
  }

  /** The trailing segment sits right after the leading and middle ones. */
  lemma TrailingPlaced(r: Record, opts: RenderOptions, rs: Renderers, extra: seq<Node>, i: nat)
    requires i < |TrailingChildren(r, opts, rs, extra)|
    ensures Children(r, opts, rs, extra)[|LeadingChildren(r, rs)| + |MiddleChildren(r, rs)| + i]
            == TrailingChildren(r, opts, rs, extra)[i]
  {
    var lm := LeadingChildren(r, rs) + MiddleChildren(r, rs);
    assert Children(r, opts, rs, extra)[|lm| + i] == TrailingChildren(r, opts, rs, extra)[i];
  }

  /** The edition, when there is one, opens the middle segment. */
  lemma EditionRendered(r: Record, rs: Renderers)
    requires r.edition.Some?
    ensures MiddleChildren(r, rs)[0] == EditionXml(r.edition.value)
  {
    var ed := Optional(Some(EditionXml(r.edition.value)));
    var p1 := ed + Map(r.language, LanguageXml);
    var p2 := p1 + Map(r.script, ScriptXml);
    var h := p2 + Map(r.abstracts, AbstractXml);
    assert MiddleChildren(r, rs)[0] == (h + MiddleTail(r, rs))[0] == h[0] == p2[0] == p1[0] == ed[0];
  }

  /** The languages follow the edition (if any), one node each, in order. */
  lemma LanguageRendered(r: Record, rs: Renderers, k: nat)
    requires k < |r.language|
    ensures MiddleChildren(r, rs)[(if r.edition.Some? then 1 else 0) + k] == LanguageXml(r.language[k])
  {
    var ed := Optional(if r.edition.Some? then Some(EditionXml(r.edition.value)) else None);
    var p1 := ed + Map(r.language, LanguageXml);
    var p2 := p1 + Map(r.script, ScriptXml);
    var h := p2 + Map(r.abstracts, AbstractXml);
    var at := |ed| + k;
    assert MiddleChildren(r, rs)[at] == (h + MiddleTail(r, rs))[at] == h[at] == p2[at] == p1[at];
  }

  /** The scripts follow the languages, one node each, in order. */
  lemma ScriptRendered(r: Record, rs: Renderers, k: nat)
    requires k < |r.script|
    ensures MiddleChildren(r, rs)[(if r.edition.Some? then 1 else 0) + |r.language| + k] == ScriptXml(r.script[k])
  {
    var p1 := Optional(if r.edition.Some? then Some(EditionXml(r.edition.value)) else None)
              + Map(r.language, LanguageXml);
    var p2 := p1 + Map(r.script, ScriptXml);
    var h := p2 + Map(r.abstracts, AbstractXml);
    var at := |p1| + k;
    assert MiddleChildren(r, rs)[at] == (h + MiddleTail(r, rs))[at] == h[at] == p2[at];
  }

  /** The abstracts follow the scripts, one node each, in order. */
  lemma AbstractRendered(r: Record, rs: Renderers, k: nat)
    requires k < |r.abstracts|
    ensures MiddleChildren(r, rs)[(if r.edition.Some? then 1 else 0) + |r.language| + |r.script| + k]
            == AbstractXml(r.abstracts[k])
  {
    var p2 := Optional(if r.edition.Some? then Some(EditionXml(r.edition.value)) else None)
              + Map(r.language, LanguageXml) + Map(r.script, ScriptXml);
    var h := p2 + Map(r.abstracts, AbstractXml);
    var at := |p2| + k;
    assert MiddleChildren(r, rs)[at] == (h + MiddleTail(r, rs))[at] == h[at];
  }

  /** The status follows the abstracts, and the copyright, when there is one, follows the status. */
  lemma StatusRendered(r: Record, rs: Renderers)
    ensures var at := (if r.edition.Some? then 1 else 0) + |r.language| + |r.script| + |r.abstracts|;
      && MiddleChildren(r, rs)[at] == r.status
      && (r.copyright.Some? ==> MiddleChildren(r, rs)[at + 1] == r.copyright.value)
  {
    var h := MiddleHead(r);
    var p4 := [r.status] + Optional(r.copyright);
    var t := p4 + Map(r.relations, rs.relation);
    assert MiddleChildren(r, rs)[|h|] == (h + t)[|h|] == t[0] == p4[0];
    if r.copyright.Some? {
      assert MiddleChildren(r, rs)[|h| + 1] == (h + t)[|h| + 1] == t[1] == p4[1];
    }
  }

  /** The relations close the middle segment, one node each, in order. */
  lemma RelationRendered(r: Record, rs: Renderers, k: nat)
    requires k < |r.relations|
    ensures MiddleChildren(r, rs)[(if r.edition.Some? then 1 else 0) + |r.language| + |r.script| + |r.abstracts|
                                  + 1 + (if r.copyright.Some? then 1 else 0) + k] == rs.relation(r.relations[k])
  {
    var h := MiddleHead(r);
    var p4 := [r.status] + Optional(r.copyright);
    var t := p4 + Map(r.relations, rs.relation);
    var at := |h| + |p4| + k;
    assert MiddleChildren(r, rs)[at] == (h + t)[at] == t[|p4| + k];
  }

  /** The workgroup, when there is one, opens the trailing segment. */
  lemma WorkgroupRendered(r: Record, opts: RenderOptions, rs: Renderers, extra: seq<Node>)
    requires r.workgroup.Some?
    ensures TrailingChildren(r, opts, rs, extra)[0] == r.workgroup.value
  {
    var t := TrailingChildren(r, opts, rs, extra);
    var wg := Optional(r.workgroup);
    var rest := Optional(if opts.note.Some? then Some(NoteXml(opts.note.value)) else None)
                + Map(r.ics, rs.ics) + Optional(if r.allParts then Some(AllPartsMarker) else None) + extra;
    assert t == wg + Optional(if opts.note.Some? then Some(NoteXml(opts.note.value)) else None)
                + Map(r.ics, rs.ics) + Optional(if r.allParts then Some(AllPartsMarker) else None) + extra;
    assert t[0] == wg[0];
  }

  /** `title(lang:)`: one title (or nil) for a language, or the whole list when no language is asked for. */
  datatype TitleLookup = OneTitle(found: Option<IsoLocalizedTitle>) | AllTitles(titles: seq<IsoLocalizedTitle>)

  class IsoBibliographicItem {
    var fetched: Option<string>
    var docidentifier: seq<IsoDocumentId>
    var edition: Option<string>
    var title: seq<IsoLocalizedTitle>
    var docType: string
    var status: Node
    var workgroup: Option<Node>
    var ics: seq<Ics>
    var link: seq<TypedUri>
    var language: seq<string>
    var script: seq<string>
    var dates: seq<Node>
    var abstracts: seq<Node>
    var contributors: seq<Contribution>
    var copyright: Option<Node>
    var relations: seq<Relation>
    var idAttribute: bool
    var allParts: bool

    /** No identifier object and no title object appears twice in the record. */
    ghost predicate Valid()
      reads this`docidentifier, this`title
    {
      DistinctIds(docidentifier) && DistinctTitles(title)
    }

    function DocIds(): (ds: seq<DocId>)
      reads this`docidentifier, docidentifier
    {
      IdValues(docidentifier)
    }

    function Titles(): (ts: seq<TitleValue>)
      reads this`title, title
    {
      TitleValues(title)
    }

    /** The record's own fields, with the given values in place of its identifier and title objects. */
    function Fields(ids: seq<DocId>, titles: seq<TitleValue>): Record
      reads this
    {
      Record(fetched, ids, edition, titles, docType, status, workgroup, ics, link, language, script,
             dates, abstracts, contributors, copyright, relations, idAttribute, allParts)
    }

    /** The record's value: what `DeepClone.clone(self)` copies. */
    function Snapshot(): Record
      reads this, docidentifier, title
    {
      Fields(IdValues(docidentifier), TitleValues(title))
    }

    /**
     * Builds one identifier object per identifier and one title object per
     * title (normalising blank main titles); the id attribute starts enabled
     * and the all-parts flag unset.
     */
    constructor (docid: seq<DocId>, titles: seq<TitleArgs>, edition: Option<string>, language: seq<string>,
                 script: seq<string>, docType: string, status: Node, workgroup: Option<Node>, ics: seq<Ics>,
                 link: seq<TypedUri>, fetched: Option<string>, dates: seq<Node>, abstracts: seq<Node>,
                 contributors: seq<Contribution>, copyright: Option<Node>, relations: seq<Relation>)
      ensures Valid()
      ensures forall k :: 0 <= k < |docidentifier| ==> fresh(docidentifier[k])
      ensures forall k :: 0 <= k < |title| ==> fresh(title[k])
      ensures DocIds() == docid
      ensures |Titles()| == |titles|
      ensures forall k :: 0 <= k < |titles| ==>
        Titles()[k] == TitleValue(titles[k].titleIntro, MainOrPlaceholder(titles[k].titleMain),
                                  titles[k].titlePart, titles[k].language, titles[k].script)
      ensures Snapshot() == Record(fetched, docid, edition, Titles(), docType, status, workgroup, ics, link,
                                   language, script, dates, abstracts, contributors, copyright, relations,
                                   true, false)
    {
      var ds := NewIdObjects(docid);
      var ts := NewTitleObjects(titles);
      this.fetched := fetched;
      this.docidentifier := ds;
      this.edition := edition;
      this.title := ts;
      this.docType := docType;
      this.status := status;
      this.workgroup := workgroup;
      this.ics := ics;
      this.link := link;
      this.language := language;
      this.script := script;
      this.dates := dates;
      this.abstracts := abstracts;
      this.contributors := contributors;
      this.copyright := copyright;
      this.relations := relations;
      this.idAttribute := true;
      this.allParts := false;
    }

    /** Stops the root `id` attribute from being rendered; nothing else changes. */
    method DisableIdAttribute()
      modifies this
      ensures Valid() == old(Valid())
      ensures !idAttribute
      ensures Snapshot() == old(Snapshot()).(idAttribute := false)
    {
      idAttribute := false;
    }

    /**
     * `to_all_parts`: records a copy of the record as it was under a
     * `partOf` relation, then strips this record down to the all-parts
     * reference, editing its own title and identifier objects in place.
     */
    method ToAllParts()
      requires Valid()
      modifies this, docidentifier, title
      ensures Valid()
      ensures docidentifier == old(docidentifier) && title == old(title)
      ensures Snapshot() == AllPartsOf(old(Snapshot()))
    {
      var me := Snapshot().(idAttribute := false);
      relations := relations + [Relation(PartOf, None, None, Some(me))];
      ReduceToAllParts();
    }

    /** The rest of `to_all_parts` once the relation is recorded: titles, then abstracts, then identifiers and the flag. */
    method ReduceToAllParts()
      requires Valid()
      modifies this, docidentifier, title
      ensures Valid()
      ensures docidentifier == old(docidentifier) && title == old(title)
      ensures Snapshot() == old(Snapshot()).(title := Map(old(Titles()), PartDropped), abstracts := [],
        docidentifier := Map(Map(old(DocIds()), PartRemoved), AllPartsMarked), allParts := true)
    {
      var titleObjs := title;
      ghost var ids := IdValues(docidentifier);
      RemoveTitleParts(titleObjs);
      assert IdValues(docidentifier) == ids;
      abstracts := [];
      IdsToAllParts();
    }

    /** The rest of `to_all_parts` once titles and abstracts are done: every part designator removed, then the marking. */
    method IdsToAllParts()
      requires Valid()
      modifies this, docidentifier
      ensures Valid()
      ensures docidentifier == old(docidentifier) && title == old(title)
      ensures Snapshot() == old(Snapshot()).(docidentifier := Map(Map(old(DocIds()), PartRemoved), AllPartsMarked),
                                             allParts := true)
    {
      var idObjs := docidentifier;
      ghost var titles := TitleValues(title);
      RemoveIdParts(idObjs);
      assert TitleValues(title) == titles;
      MarkAllParts();
    }

    /** The end of `to_all_parts`: every identifier marked " (all parts)", then the flag set. */
    method MarkAllParts()
      requires Valid()
      modifies this, docidentifier
      ensures Valid()
      ensures docidentifier == old(docidentifier) && title == old(title)
      ensures Snapshot() == old(Snapshot()).(docidentifier := Map(old(DocIds()), AllPartsMarked), allParts := true)
    {
      var idObjs := docidentifier;
      ghost var titles := TitleValues(title);
      MarkIdsAllParts(idObjs);
      assert TitleValues(title) == titles;
      allParts := true;
    }

    /**
     * `to_most_recent_reference`: records a copy of the record as it was
     * under an `instance` relation, then drops this record's abstracts,
     * dates and identifier years.
     */
    method ToMostRecentReference()
      requires Valid()
      modifies this, docidentifier
      ensures Valid()
      ensures docidentifier == old(docidentifier) && title == old(title)
      ensures Snapshot() == MostRecentOf(old(Snapshot()))
    {
      var me := Snapshot().(idAttribute := false);
      relations := relations + [Relation(Instance, None, None, Some(me))];
      ReduceToMostRecent();
    }

    /** The in-place part of `to_most_recent_reference`, after the relation is recorded. */
    method ReduceToMostRecent()
      requires Valid()
      modifies this, docidentifier
      ensures Valid()
      ensures docidentifier == old(docidentifier) && title == old(title)
      ensures Snapshot() == old(Snapshot()).(abstracts := [], dates := [], docidentifier := Map(old(DocIds()), DateRemoved))
    {
      var idObjs := docidentifier;
      ghost var titles := TitleValues(title);
      abstracts := [];
      dates := [];
      RemoveIdDates(idObjs);
      assert TitleValues(title) == titles;
    }

    /** `title(lang:)`: the first title in the language, nil when there is none, or all titles when no language is given. */
    function Title(lang: Option<string>): (r: TitleLookup)
      reads this, title
      ensures lang.None? ==> r == AllTitles(title)
      ensures lang.Some? ==> r.OneTitle?
      ensures lang.Some? && r.found.None? ==> forall k :: 0 <= k < |title| ==> title[k].language != lang.value
      ensures lang.Some? && r.found.Some? ==>
        exists k :: 0 <= k < |title| && title[k] == r.found.value && title[k].language == lang.value
                    && forall j :: 0 <= j < k ==> title[j].language != lang.value
    {
      if lang.None? then AllTitles(title)
      else
        var ts := Titles();
        match FirstWhere(ts, (t: TitleValue) => t.language == lang.value)
        case None => OneTitle(None)
        case Some(k) => OneTitle(Some(title[k]))
    }

    /** `url(type = :src)`: the content of the first link of that type; the caller must ask for a type the record has. */
    function Url(linkType: string := "src"): (u: string)
      reads this
      requires exists k :: 0 <= k < |link| && link[k].linkType == linkType
      ensures exists k :: 0 <= k < |link| && link[k].linkType == linkType && link[k].content == u
                          && forall j :: 0 <= j < k ==> link[j].linkType != linkType
    {
      var k := FirstWhere(link, (l: TypedUri) => l.linkType == linkType);
      link[k.value].content
    }

    /**
     * `to_xml` with a builder: the `bibitem` element, its children appended
     * one collaborator at a time in `render_xml`'s order. A record whose id
     * attribute is enabled must have an identifier that is not a DOI.
     */
    method ToXml(opts: RenderOptions, rs: Renderers, extra: seq<Node>) returns (n: Node)
      requires idAttribute ==> HasNonDoi(DocIds())
      ensures n == BibItemXml(Snapshot(), opts, rs, extra)
    {
      var leading := LeadingXml(rs);
      var middle := MiddleXml(rs);
      var trailing := TrailingXml(opts, rs, extra);
      n := Element("bibitem", XmlAttrs(docType, idAttribute, DocIds()), leading + middle + trailing);
    }

    /** Fetched, titles, links, identifiers, dates and contributors, appended in that order. */
    method LeadingXml(rs: Renderers) returns (children: seq<Node>)
      ensures children == LeadingChildren(Snapshot(), rs)
    {
      children := [FetchedXml(fetched)];
      children := AppendEach(children, Titles(), TitleXml);
      children := AppendEach(children, link, rs.link);
      children := AppendEach(children, DocIds(), DocIdXml);
      children := children + dates;
      children := AppendEach(children, contributors, ContributorXml);
    }

    /** Edition, languages, scripts, abstracts, status, copyright and relations, appended in that order. */
    method MiddleXml(rs: Renderers) returns (children: seq<Node>)
      ensures children == MiddleChildren(Snapshot(), rs)
    {
      children := if edition.Some? then [EditionXml(edition.value)] else [];
      children := AppendEach(children, language, LanguageXml);
      children := AppendEach(children, script, ScriptXml);
      children := AppendEach(children, abstracts, AbstractXml);
      var tail := [status];
      if copyright.Some? {
        tail := tail + [copyright.value];
      }
      tail := AppendEach(tail, relations, rs.relation);
      children := children + tail;
    }

    /** Workgroup, note, classification codes, the all-parts marker and the extra content, appended in that order. */
    method TrailingXml(opts: RenderOptions, rs: Renderers, extra: seq<Node>) returns (children: seq<Node>)
      ensures children == TrailingChildren(Snapshot(), opts, rs, extra)
    {
      children := if workgroup.Some? then [workgroup.value] else [];
      if opts.note.Some? {
        children := children + [NoteXml(opts.note.value)];
      }
      children := AppendEach(children, ics, rs.ics);
      if allParts {
        children := children + [AllPartsMarker];
      }
      children := children + extra;
    }
  }
}
