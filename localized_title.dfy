/**
 * `IsoLocalizedTitle`: a title in one language, made of an optional
 * introductory element, a main element that is never blank, and an optional
 * part element, rendered as `intro -- main -- part`.
 */
module LocalizedTitles {
  import opened Seqs
  import opened Wrappers
  import opened Xml

  /** What a blank main title is replaced with. */
  const Placeholder := "[ -- ]"

  /** Placed between the rendered segments of a title. */
  const Separator := " -- "

  /** The value of a title object: what a deep copy of it holds. */
  datatype TitleValue = TitleValue(
    titleIntro: Option<string>,
    titleMain: string,
    titlePart: Option<string>,
    language: string,
    script: string)

  /** The constructor's arguments, before the main title is normalised. */
  datatype TitleArgs = TitleArgs(
    titleIntro: Option<string>,
    titleMain: Option<string>,
    titlePart: Option<string>,
    language: string,
    script: string)

  /** Ruby's `s && !s.empty?`: the segment is rendered. */
  predicate Present(s: Option<string>) {
    s.Some? && s.value != ""
  }

  /** The main title the constructor keeps: the given one, or the placeholder when it is nil or empty. */
  function MainOrPlaceholder(titleMain: Option<string>): (m: string)
    ensures m != ""
    ensures Present(titleMain) ==> m == titleMain.value
    ensures !Present(titleMain) ==> m == Placeholder
  {
    if Present(titleMain) then titleMain.value else Placeholder
  }

  /** Where the main title starts in the rendered string. */
  function MainOffset(titleIntro: Option<string>): nat {
    if Present(titleIntro) then |titleIntro.value| + |Separator| else 0
  }

  /**
   * `to_s`: the main title, preceded by `intro -- ` when the intro is
   * present and followed by ` -- part` when the part is present. The four
   * clauses below pin the string down completely: its length, the intro
   * prefix (or the main title at the start), the main title at its offset,
   * and the part suffix (or the main title at the end).
   */
  function TitleString(titleIntro: Option<string>, titleMain: string, titlePart: Option<string>): (s: string)
    ensures |s| == MainOffset(titleIntro) + |titleMain| + (if Present(titlePart) then |Separator| + |titlePart.value| else 0)
    ensures Present(titleIntro) ==> s[..MainOffset(titleIntro)] == titleIntro.value + Separator
    ensures s[MainOffset(titleIntro)..MainOffset(titleIntro) + |titleMain|] == titleMain
    ensures !Present(titleIntro) ==> s[..|titleMain|] == titleMain
    ensures Present(titlePart) ==> s[|s| - |Separator| - |titlePart.value|..] == Separator + titlePart.value
    ensures !Present(titlePart) ==> s[|s| - |titleMain|..] == titleMain
  {
    var withIntro := if Present(titleIntro) then titleIntro.value + Separator + titleMain else titleMain;
    assert withIntro[MainOffset(titleIntro)..] == titleMain;
    if Present(titlePart) then
      var s := withIntro + Separator + titlePart.value;
      assert s[..|withIntro|] == withIntro;
      s
    else withIntro
  }

  /** `to_xml`: one `title` element, plain text in the title's language and script, holding `to_s`. */
  function TitleXml(t: TitleValue): (n: Node)
    ensures n.Element? && n.name == "title"
    ensures n.attrs == [Attr("format", "text/plain"), Attr("language", t.language), Attr("script", t.script)]
    ensures n.children == [Text(TitleString(t.titleIntro, t.titleMain, t.titlePart))]
  {
    Element("title",
      [Attr("format", "text/plain"), Attr("language", t.language), Attr("script", t.script)],
      [Text(TitleString(t.titleIntro, t.titleMain, t.titlePart))])
  }

  /** Once the part is gone the rendered title is `main` or `intro -- main`, ending with the main title. */
  lemma NoPartTail(titleIntro: Option<string>, titleMain: string)
    ensures TitleString(titleIntro, titleMain, None) ==
            (if Present(titleIntro) then titleIntro.value + Separator + titleMain else titleMain)
  {
    var s := TitleString(titleIntro, titleMain, None);
    if Present(titleIntro) {
      assert s == s[..MainOffset(titleIntro)] + s[MainOffset(titleIntro)..];
    } else {
      assert s == s[..|titleMain|];
    }
  }

  /** The title with its part removed; intro, main title, language and script stay. */
  function PartDropped(t: TitleValue): (u: TitleValue)
    ensures u.titlePart.None?
    ensures u.(titlePart := t.titlePart) == t
  {
    t.(titlePart := None)
  }

  /** Dropping the part a second time changes nothing, and the title then renders without a part tail. */
  lemma PartDroppedIdempotent(t: TitleValue)
    ensures PartDropped(PartDropped(t)) == PartDropped(t)
    ensures var u := PartDropped(t);
      TitleString(u.titleIntro, u.titleMain, u.titlePart) ==
      (if Present(t.titleIntro) then t.titleIntro.value + Separator + t.titleMain else t.titleMain)
  {
    NoPartTail(t.titleIntro, t.titleMain);
  }

  class IsoLocalizedTitle {
    var titleIntro: Option<string>
    var titleMain: string
    var titlePart: Option<string>
    var language: string
    var script: string

    /** The title is never blank. */
    ghost predicate Valid()
      reads this
    {
      titleMain != ""
    }

    function Value(): TitleValue
      reads this
    {
      TitleValue(titleIntro, titleMain, titlePart, language, script)
    }

    /** Stores the arguments as given, except that a nil or empty main title becomes the placeholder. */
    constructor (titleIntro: Option<string>, titleMain: Option<string>, titlePart: Option<string>,
                 language: string, script: string)
      ensures Valid()
      ensures this.titleIntro == titleIntro && this.titlePart == titlePart
      ensures this.language == language && this.script == script
      ensures Present(titleMain) ==> this.titleMain == titleMain.value
      ensures !Present(titleMain) ==> this.titleMain == Placeholder
    {
      this.titleIntro := titleIntro;
      this.titlePart := titlePart;
      this.language := language;
      this.script := script;
      if titleMain.None? || titleMain.value == "" {
        this.titleMain := Placeholder;
      } else {
        this.titleMain := titleMain.value;
      }
    }

    /** Drops the part element; nothing else changes, so a second call changes nothing. */
    method RemovePart()
      modifies this
      ensures Valid() <==> old(Valid())
      ensures titlePart == None
      ensures titleIntro == old(titleIntro) && titleMain == old(titleMain)
      ensures language == old(language) && script == old(script)
      ensures Value() == PartDropped(old(Value()))
    {
      titlePart := None;
    }

    /** `to_s` of this title: it holds the main title at its offset, so it is never shorter than the main title. */
    function ToS(): (s: string)
      reads this
      ensures |s| >= MainOffset(titleIntro) + |titleMain|
      ensures s[MainOffset(titleIntro)..MainOffset(titleIntro) + |titleMain|] == titleMain
    {
      TitleString(titleIntro, titleMain, titlePart)
    }
  }

  /** No object appears twice, so an in-place pass visits each one once. */
  ghost predicate DistinctTitles(objs: seq<IsoLocalizedTitle>) {
    forall i, j :: 0 <= i < j < |objs| ==> objs[i] != objs[j]
  }

  /** `titles.map { |t| IsoLocalizedTitle.new(t) }`: one new object per title, none repeated, each main title normalised. */
  method NewTitleObjects(titles: seq<TitleArgs>) returns (ts: seq<IsoLocalizedTitle>)
    ensures |ts| == |titles| && DistinctTitles(ts)
    ensures forall k :: 0 <= k < |ts| ==> fresh(ts[k]) && ts[k].Valid()
    ensures forall k :: 0 <= k < |ts| ==>
      ts[k].Value() == TitleValue(titles[k].titleIntro, MainOrPlaceholder(titles[k].titleMain),
                                  titles[k].titlePart, titles[k].language, titles[k].script)
  {
    ts := [];
    for i := 0 to |titles|
      invariant |ts| == i && DistinctTitles(ts)
      invariant forall k :: 0 <= k < i ==> fresh(ts[k]) && ts[k].Valid()
      invariant forall k :: 0 <= k < i ==>
        ts[k].Value() == TitleValue(titles[k].titleIntro, MainOrPlaceholder(titles[k].titleMain),
                                    titles[k].titlePart, titles[k].language, titles[k].script)
    {
      var t := new IsoLocalizedTitle(titles[i].titleIntro, titles[i].titleMain, titles[i].titlePart,
                                     titles[i].language, titles[i].script);
      ts := ts + [t];
    }
  }

  /** The values the title objects currently hold. */
  function TitleValues(objs: seq<IsoLocalizedTitle>): (ts: seq<TitleValue>)
    reads objs
    ensures |ts| == |objs|
    ensures forall k :: 0 <= k < |objs| ==> ts[k] == objs[k].Value()
  {
    seq(|objs|, k requires 0 <= k < |objs| reads objs => objs[k].Value())
  }

  /** `titles.each(&:remove_part)`. */
  method RemoveTitleParts(objs: seq<IsoLocalizedTitle>)
    requires DistinctTitles(objs)
    modifies objs
    ensures TitleValues(objs) == Map(old(TitleValues(objs)), PartDropped)
  {
    for i := 0 to |objs|
      invariant forall k :: 0 <= k < i ==> objs[k].Value() == PartDropped(old(objs[k].Value()))
      invariant forall k :: i <= k < |objs| ==> objs[k].Value() == old(objs[k].Value())
    {
      objs[i].RemovePart();
    }
  }
}
