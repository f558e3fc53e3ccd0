/**
 * `IsoDocumentId`: a document identifier string such as "ISO 19115-1:2014"
 * and the in-place edits that drop its part designator, drop its year, or
 * mark it as standing for all parts. Identifiers typed "Chinese Standard"
 * use `.` before the part and `-` before the year; every other type uses
 * `-` before the part and `:` before the year.
 */
module DocumentIds {
  import opened Seqs
  import opened Wrappers
  import opened Text
  import opened Xml

  const ChineseStandard := "Chinese Standard"

  /** What `all_parts` appends. */
  const AllPartsSuffix := " (all parts)"

  /** The value of an identifier object: what a deep copy of it holds. */
  datatype DocId = DocId(
    projectNumber: Option<string>,
    partNumber: Option<string>,
    subpartNumber: Option<string>,
    prefix: Option<string>,
    idType: Option<string>,
    id: string)

  /** The character the part designator starts with. */
  function PartSeparator(idType: Option<string>): char {
    if idType == Some(ChineseStandard) then '.' else '-'
  }

  /** The character the year starts with. */
  function DateSeparator(idType: Option<string>): char {
    if idType == Some(ChineseStandard) then '-' else ':'
  }

  /** A match of `sep\d+` starts at `i`. */
  predicate PartAt(s: string, sep: char, i: int) {
    0 <= i && i + 1 < |s| && s[i] == sep && IsDigit(s[i + 1])
  }

  /** A match of `sep[12]\d\d\d` (five characters) starts at `i`. */
  predicate DateAt(s: string, sep: char, i: int) {
    0 <= i && i + 5 <= |s| && s[i] == sep && (s[i + 1] == '1' || s[i + 1] == '2')
    && IsDigit(s[i + 2]) && IsDigit(s[i + 3]) && IsDigit(s[i + 4])
  }

  /** `s[start..start + n]` is a maximal run of digits: `\d+` matched greedily. */
  predicate MaximalDigits(s: string, start: nat, n: nat) {
    start + n <= |s|
    && (forall k :: start <= k < start + n ==> IsDigit(s[k]))
    && (start + n == |s| || !IsDigit(s[start + n]))
  }

  /** The leftmost start of a part-designator match at or after `start`. */
  function FirstPart(s: string, sep: char, start: nat): (r: Option<nat>)
    requires start <= |s|
    ensures r.Some? ==> start <= r.value && PartAt(s, sep, r.value)
    ensures r.Some? ==> forall j :: start <= j < r.value ==> !PartAt(s, sep, j)
    ensures r.None? ==> forall j :: start <= j < |s| ==> !PartAt(s, sep, j)
    decreases |s| - start
  {
    if start == |s| then None
    else if PartAt(s, sep, start) then Some(start)
    else FirstPart(s, sep, start + 1)
  }

  /** The leftmost start of a year match at or after `start`. */
  function FirstDate(s: string, sep: char, start: nat): (r: Option<nat>)
    requires start <= |s|
    ensures r.Some? ==> start <= r.value && DateAt(s, sep, r.value)
    ensures r.Some? ==> forall j :: start <= j < r.value ==> !DateAt(s, sep, j)
    ensures r.None? ==> forall j :: start <= j < |s| ==> !DateAt(s, sep, j)
    decreases |s| - start
  {
    if start == |s| then None
    else if DateAt(s, sep, start) then Some(start)
    else FirstDate(s, sep, start + 1)
  }

  /** How many digits follow position `start`: the greedy `\d+`. */
  function DigitRun(s: string, start: nat): (n: nat)
    requires start <= |s|
    ensures MaximalDigits(s, start, n)
    decreases |s| - start
  {
    if start < |s| && IsDigit(s[start]) then 1 + DigitRun(s, start + 1) else 0
  }

  /** A maximal digit run is determined by where it starts. */
  lemma MaximalDigitsUnique(s: string, start: nat, m: nat, n: nat)
    requires MaximalDigits(s, start, m) && MaximalDigits(s, start, n)
    ensures m == n
  {
  }

  /**
   * `s.sub(/sep\d+/, "")`: the leftmost separator and all the digits after
   * it removed; with no match `s` is returned unchanged, and only then.
   */
  function WithoutPart(s: string, sep: char): (r: string)
    ensures r == s <==> forall j :: 0 <= j < |s| ==> !PartAt(s, sep, j)
    ensures |r| <= |s| - 2 || r == s
  {
    match FirstPart(s, sep, 0)
    case None => s
    case Some(i) => s[..i] + s[i + 1 + DigitRun(s, i + 1)..]
  }

  /** `s.sub(/sep[12]\d\d\d/, "")`: the leftmost five-character year match removed; with no match, and only then, `s` unchanged. */
  function WithoutDate(s: string, sep: char): (r: string)
    ensures r == s <==> forall j :: 0 <= j < |s| ==> !DateAt(s, sep, j)
    ensures |r| == |s| - 5 || r == s
  {
    match FirstDate(s, sep, 0)
    case None => s
    case Some(i) => s[..i] + s[i + 5..]
  }

  /** Given the leftmost match and its greedy digit run, `WithoutPart` cuts out exactly those characters. */
  lemma WithoutPartCutsLeftmostMatch(s: string, sep: char, i: nat, n: nat)
    requires PartAt(s, sep, i) && forall j :: 0 <= j < i ==> !PartAt(s, sep, j)
    requires MaximalDigits(s, i + 1, n)
    ensures n >= 1
    ensures WithoutPart(s, sep) == s[..i] + s[i + 1 + n..]
  {
    var f := FirstPart(s, sep, 0);
    assert f == Some(i);
    MaximalDigitsUnique(s, i + 1, n, DigitRun(s, i + 1));
    assert IsDigit(s[i + 1]);
  }

  /** Given the leftmost year match, `WithoutDate` cuts out exactly its five characters. */
  lemma WithoutDateCutsLeftmostMatch(s: string, sep: char, i: nat)
    requires DateAt(s, sep, i) && forall j :: 0 <= j < i ==> !DateAt(s, sep, j)
    ensures WithoutDate(s, sep) == s[..i] + s[i + 5..]
  {
    var f := FirstDate(s, sep, 0);
    assert f == Some(i);
  }

  /**
   * `remove_date` is not idempotent: an identifier with two year tokens
   * loses the first on one application and the second on the next.
   */
  lemma WithoutDateNotIdempotent()
    ensures WithoutDate("ISO 8601:2000:2004", ':') == "ISO 8601:2004"
    ensures WithoutDate("ISO 8601:2004", ':') == "ISO 8601"
  {
    var s := "ISO 8601:2000:2004";
    assert DateAt(s, ':', 8);
    WithoutDateCutsLeftmostMatch(s, ':', 8);
    assert s[..8] + s[13..] == "ISO 8601:2004";
    var t := "ISO 8601:2004";
    assert DateAt(t, ':', 8);
    WithoutDateCutsLeftmostMatch(t, ':', 8);
    assert t[..8] + t[13..] == "ISO 8601";
  }

  /** The identifier after `remove_part`. */
  function PartRemoved(d: DocId): (e: DocId)
    ensures e.partNumber.None? && e.subpartNumber.None?
    ensures e.id == WithoutPart(d.id, PartSeparator(d.idType))
    ensures e.(id := d.id, partNumber := d.partNumber, subpartNumber := d.subpartNumber) == d
  {
    d.(id := WithoutPart(d.id, PartSeparator(d.idType)), partNumber := None, subpartNumber := None)
  }

  /** The identifier after `remove_date`. */
  function DateRemoved(d: DocId): (e: DocId)
    ensures e.id == WithoutDate(d.id, DateSeparator(d.idType))
    ensures e.(id := d.id) == d
  {
    d.(id := WithoutDate(d.id, DateSeparator(d.idType)))
  }

  /** The identifier after `all_parts`. */
  function AllPartsMarked(d: DocId): (e: DocId)
    ensures |e.id| == |d.id| + 12 && e.id[..|d.id|] == d.id && e.id[|d.id|..] == AllPartsSuffix
    ensures e.(id := d.id) == d
  {
    d.(id := d.id + AllPartsSuffix)
  }

  /** `all_parts` is not idempotent: a second call appends the suffix again. */
  lemma AllPartsTwice(d: DocId)
    ensures AllPartsMarked(AllPartsMarked(d)).id == d.id + AllPartsSuffix + AllPartsSuffix
    ensures AllPartsMarked(AllPartsMarked(d)) != AllPartsMarked(d)
  {
    assert |AllPartsMarked(AllPartsMarked(d)).id| == |AllPartsMarked(d).id| + 12;
  }

  /** `to_xml`: a `docidentifier` element holding the id, with a `type` attribute exactly when the type is not nil. */
  function DocIdXml(d: DocId): (n: Node)
    ensures n.Element? && n.name == "docidentifier" && n.children == [Text(d.id)]
    ensures d.idType.None? ==> n.attrs == []
    ensures d.idType.Some? ==> n.attrs == [Attr("type", d.idType.value)]
  {
    Element("docidentifier", if d.idType.Some? then [Attr("type", d.idType.value)] else [], [Text(d.id)])
  }

  class IsoDocumentId {
    var projectNumber: Option<string>
    var partNumber: Option<string>
    var subpartNumber: Option<string>
    var prefix: Option<string>
    var idType: Option<string>
    var id: string

    function Value(): DocId
      reads this
    {
      DocId(projectNumber, partNumber, subpartNumber, prefix, idType, id)
    }

    constructor (d: DocId)
      ensures Value() == d
    {
      projectNumber := d.projectNumber;
      partNumber := d.partNumber;
      subpartNumber := d.subpartNumber;
      prefix := d.prefix;
      idType := d.idType;
      id := d.id;
    }

    /** Drops the part designator from the id and clears the part and subpart numbers, whether or not the id had one. */
    method RemovePart()
      modifies this
      ensures partNumber == None && subpartNumber == None
      ensures id == WithoutPart(old(id), PartSeparator(idType))
      ensures projectNumber == old(projectNumber) && prefix == old(prefix) && idType == old(idType)
      ensures Value() == PartRemoved(old(Value()))
    {
      partNumber := None;
      subpartNumber := None;
      id := WithoutPart(id, PartSeparator(idType));
    }

    /** Drops the first year token from the id; every other field is left as it was. */
    method RemoveDate()
      modifies this
      ensures id == WithoutDate(old(id), DateSeparator(idType))
      ensures projectNumber == old(projectNumber) && partNumber == old(partNumber)
      ensures subpartNumber == old(subpartNumber) && prefix == old(prefix) && idType == old(idType)
      ensures Value() == DateRemoved(old(Value()))
    {
      id := WithoutDate(id, DateSeparator(idType));
    }

    /** Appends " (all parts)": the old id is a prefix of the new one, which is 12 characters longer. */
    method AllParts()
      modifies this
      ensures |id| == |old(id)| + 12 && id[..|old(id)|] == old(id)
      ensures id[|old(id)|..] == AllPartsSuffix
      ensures Value() == AllPartsMarked(old(Value()))
    {
      id := id + AllPartsSuffix;
    }
  }

  /** No object appears twice, so an in-place pass visits each one once. */
  ghost predicate DistinctIds(objs: seq<IsoDocumentId>) {
    forall i, j :: 0 <= i < j < |objs| ==> objs[i] != objs[j]
  }

  /** `docid.map { |t| IsoDocumentId.new(t) }`: one new object per identifier, none repeated. */
  method NewIdObjects(docid: seq<DocId>) returns (ds: seq<IsoDocumentId>)
    ensures |ds| == |docid| && DistinctIds(ds)
    ensures forall k :: 0 <= k < |ds| ==> fresh(ds[k]) && ds[k].Value() == docid[k]
  {
    ds := [];
    for i := 0 to |docid|
      invariant |ds| == i && DistinctIds(ds)
      invariant forall k :: 0 <= k < i ==> fresh(ds[k]) && ds[k].Value() == docid[k]
    {
      var d := new IsoDocumentId(docid[i]);
      ds := ds + [d];
    }
  }

  /** The values the identifier objects currently hold. */
  function IdValues(objs: seq<IsoDocumentId>): (ds: seq<DocId>)
    reads objs
    ensures |ds| == |objs|
    ensures forall k :: 0 <= k < |objs| ==> ds[k] == objs[k].Value()
  {
    seq(|objs|, k requires 0 <= k < |objs| reads objs => objs[k].Value())
  }

  /** `ids.each(&:remove_part)`. */
  method RemoveIdParts(objs: seq<IsoDocumentId>)
    requires DistinctIds(objs)
    modifies objs
    ensures IdValues(objs) == Map(old(IdValues(objs)), PartRemoved)
  {
    for i := 0 to |objs|
      invariant forall k :: 0 <= k < i ==> objs[k].Value() == PartRemoved(old(objs[k].Value()))
      invariant forall k :: i <= k < |objs| ==> objs[k].Value() == old(objs[k].Value())
    {
      objs[i].RemovePart();
    }
  }

  /** `ids.each(&:remove_date)`. */
  method RemoveIdDates(objs: seq<IsoDocumentId>)
    requires DistinctIds(objs)
    modifies objs
    ensures IdValues(objs) == Map(old(IdValues(objs)), DateRemoved)
  {
    for i := 0 to |objs|
      invariant forall k :: 0 <= k < i ==> objs[k].Value() == DateRemoved(old(objs[k].Value()))
      invariant forall k :: i <= k < |objs| ==> objs[k].Value() == old(objs[k].Value())
    {
      objs[i].RemoveDate();
    }
  }

  /** `ids.each(&:all_parts)`. */
  method MarkIdsAllParts(objs: seq<IsoDocumentId>)
    requires DistinctIds(objs)
    modifies objs
    ensures IdValues(objs) == Map(old(IdValues(objs)), AllPartsMarked)
  {
    for i := 0 to |objs|
      invariant forall k :: 0 <= k < i ==> objs[k].Value() == AllPartsMarked(old(objs[k].Value()))
      invariant forall k :: i <= k < |objs| ==> objs[k].Value() == old(objs[k].Value())
    {
      objs[i].AllParts();
    }
  }
}
