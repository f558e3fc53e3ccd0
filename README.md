# iso-bib-item core, modelled in Dafny

This project models the core of the `iso-bib-item` Ruby library. The library
describes an ISO-style standard as a bibliographic record and renders that
record as a `bibitem` XML element. The model covers these parts:

- **Document identifiers** (`IsoDocumentId`). An identifier string such as
  `ISO 19115-1:2014` can lose its part designator (`remove_part`) or its year
  (`remove_date`), or can be marked as standing for all parts (`all_parts`).
  Each edit changes the object in place. The separators depend on the type:
  a "Chinese Standard" uses `.` before the part and `-` before the year, and
  every other type uses `-` and `:`. Regular-expression substitution
  (`sub`) is modelled as removing the leftmost match, with a greedy `\d+`.
- **Localized titles** (`IsoLocalizedTitle`). The constructor turns a blank
  main title into the placeholder `[ -- ]`. `remove_part` drops the part
  element. `to_s` renders `intro -- main -- part` and leaves out blank
  segments. `to_xml` renders the title as a `title` element.
- **ICS classification codes** (`Ics`). The constructor raises an error
  unless it gets a code or a field, and it splits a dotted code into field,
  group and subgroup.
- **The bibliographic item** (`IsoBibliographicItem`). The model covers:
  - its construction;
  - the two derivations, `to_all_parts` and `to_most_recent_reference`;
  - `title(lang:)` and `url(type)`;
  - the root `id` attribute (`makeid`, `xml_attrs`);
  - `render_xml`.

  Each derivation first stores a deep copy of the record, with its id
  attribute disabled, as a new relation. It then edits the receiver's own
  title and identifier objects in place.

**How the model is organised:**

- Objects the library edits in place are Dafny classes with the same fields.
  These are the identifier, the title and the bibliographic item.
- Each class has a value datatype (`DocId`, `TitleValue`, `Record`) that
  describes what a deep copy holds.
- `Value()` and `Snapshot()` read an object's current value.
- The in-place passes over a list of objects are methods that work on
  sequences of objects. `@docidentifier.each(&:remove_part)` is one example.
- Each method's postcondition ties the new state to a function of the old
  value.
- XML is a tree of `Element` and `Text` nodes.
- Collaborators whose internals the core never reads are held as the node
  they render to. These are dates, abstract contents, status, copyright,
  workgroup and contributor parts.
- Collaborators whose `to_xml` lies outside the core are rendered by function
  parameters (`Renderers`). These are links, relations and classification
  codes.

On these points the model follows the code. Each of them is proved:

- `to_all_parts` and `to_most_recent_reference` edit the receiver, not the
  copy. The stored copy keeps the old identifiers, titles, dates and
  abstracts.
- The all-parts flag is set on the receiver, so the receiver's rendering
  carries the `allparts` marker. The stored copy keeps the pre-call all-parts
  flag.
- After `to_all_parts`, the receiver's identifier `ISO 19115-1:2014` reads
  `ISO 19115:2014 (all parts)`. The year keeps its colon.
- The root `id` attribute is rendered whenever the id attribute is enabled,
  even when it is the empty string.
- `remove_date` is not idempotent. An identifier with two year tokens loses
  one token per call.

Files:

- `wrappers.dfy`: `Option` and `Result`.
- `seqs.dfy`: `map` and `find` over sequences. `map` also models
  `xs.each { |x| x.to_xml builder }` as the nodes it adds.
- `text.dfy`: the Ruby string operations the core uses, namely `gsub` of
  one character, `strip` and `split`.
- `xml.dfy`: the XML tree.
- `localized_title.dfy`: the title class.
- `document_id.dfy`: the identifier class.
- `ics.dfy`: the classification code.
- `bibliographic_item.dfy`: the record, its derivations and rendering.

## Model

| member | source | states |
|---|---|---|
| Seqs.FirstWhere | lib/iso_bib_item/iso_bibliographic_item.rb:229 | `find`: the result is the leftmost index whose element satisfies the predicate. It is nil exactly when no element does. |
| Seqs.Map | lib/iso_bib_item/iso_bibliographic_item.rb:175-181 | `map`: one result per element, in order, each being the function applied to that element. |
| Text.ReplaceChar | lib/iso_bib_item/iso_bibliographic_item.rb:267 | `gsub(/:/, "-")`: the length is kept. Every occurrence of the character is replaced and every other character is unchanged. |
| Text.ReplaceCharAppend | lib/iso_bib_item/iso_bibliographic_item.rb:267 | Replacing a character commutes with concatenation. |
| Text.ReplaceSingle | lib/iso_bib_item/iso_bibliographic_item.rb:267 | A string with exactly one occurrence of the character has exactly that position replaced. |
| Text.RemoveChar | lib/iso_bib_item/iso_bibliographic_item.rb:275 | `gsub(/ /, "")`: the result does not contain the character and is no longer than the input. |
| Text.RemoveCharAppend | lib/iso_bib_item/iso_bibliographic_item.rb:275 | Removing a character commutes with concatenation. |
| Text.RemoveCharMembers | lib/iso_bib_item/iso_bibliographic_item.rb:275 | Removing a character keeps every other character that was present and adds none. |
| Text.RemoveSingle | lib/iso_bib_item/iso_bibliographic_item.rb:275 | A string with exactly one occurrence of the character loses exactly that character. |
| Text.Strip | lib/iso_bib_item/iso_bibliographic_item.rb:270 | `strip`: the result is the infix left after the leading and trailing whitespace, and it neither starts nor ends with whitespace. A string without such whitespace is unchanged. |
| Text.Split | lib/iso_bib_item/iso_bibliographic_item.rb:108 | `split('.')`: the fields between separators, with trailing empty fields dropped. |
| Text.FieldsOfJoin | lib/iso_bib_item/iso_bibliographic_item.rb:108 | Splitting on a separator undoes joining with it, for fields that do not contain it. |
| Xml.AppendEach | lib/iso_bib_item/iso_bibliographic_item.rb:283-299 | A builder holding some nodes, after `each { to_xml }`, holds exactly those nodes followed by one node per element. |
| LocalizedTitles.MainOrPlaceholder | lib/iso_bib_item/iso_localized_title.rb:33 | The kept main title is never empty. It is the given one when that is non-nil and non-empty, and `[ -- ]` otherwise. |
| LocalizedTitles.IsoLocalizedTitle.constructor | lib/iso_bib_item/iso_localized_title.rb:26-35 | Intro, part, language and script are stored unchanged. The main title is stored or replaced by the placeholder as above. |
| LocalizedTitles.TitleString | lib/iso_bib_item/iso_localized_title.rb:42-47 | `to_s` is pinned down completely by five facts: its length; an `intro -- ` prefix exactly when the intro is present; the main title at its offset; a ` -- part` suffix exactly when the part is present; otherwise the main title at the start or the end. |
| LocalizedTitles.NoPartTail | lib/iso_bib_item/iso_localized_title.rb:42-47 | Without a part, the rendered title is `intro -- main` or `main`. |
| LocalizedTitles.IsoLocalizedTitle.ToS | lib/iso_bib_item/iso_localized_title.rb:42-47 | `to_s` is at least as long as the intro separator plus the main title, and holds the main title at its offset. |
| LocalizedTitles.NewTitleObjects | lib/iso_bib_item/iso_bibliographic_item.rb:179-181 | `titles.map { IsoLocalizedTitle.new }`: one fresh title object per argument, in order, none repeated, each holding its argument with a blank main title replaced by the placeholder. |
| LocalizedTitles.TitleXml | lib/iso_bib_item/iso_localized_title.rb:49-53 | One `title` element. Its attributes are `format="text/plain"`, then the language, then the script. Its only child is the text of `to_s`. |
| LocalizedTitles.PartDropped | lib/iso_bib_item/iso_localized_title.rb:37-39 | The part is nil afterwards. Putting the old part back gives the old title, so nothing else changed. |
| LocalizedTitles.PartDroppedIdempotent | lib/iso_bib_item/iso_localized_title.rb:37-39 | Dropping the part twice is the same as once. The title then renders with no part tail. |
| LocalizedTitles.IsoLocalizedTitle.RemovePart | lib/iso_bib_item/iso_localized_title.rb:37-39 | The part becomes nil. Intro, main title, language and script are unchanged. |
| LocalizedTitles.RemoveTitleParts | lib/iso_bib_item/iso_bibliographic_item.rb:205 | After `@title.each(&:remove_part)` each title object holds its old value with the part dropped. |
| DocumentIds.FirstPart | lib/iso_bib_item/iso_bibliographic_item.rb:64-66 | The leftmost position where a separator is followed by a digit. It is none exactly when there is no such position. |
| DocumentIds.FirstDate | lib/iso_bib_item/iso_bibliographic_item.rb:72-74 | The leftmost position of a separator followed by `1` or `2` and three digits. It is none exactly when there is no such position. |
| DocumentIds.DigitRun | lib/iso_bib_item/iso_bibliographic_item.rb:64-66 | The greedy `\d+`: a maximal run of digits. |
| DocumentIds.MaximalDigitsUnique | lib/iso_bib_item/iso_bibliographic_item.rb:64-66 | A maximal digit run is determined by its start. |
| DocumentIds.WithoutPart | lib/iso_bib_item/iso_bibliographic_item.rb:64-66 | `sub(/-\d+/, "")` (or with `.`): the id is unchanged exactly when there is no match. Otherwise it is at least two characters shorter. |
| DocumentIds.WithoutPartCutsLeftmostMatch | lib/iso_bib_item/iso_bibliographic_item.rb:64-66 | Given the leftmost match and its maximal digit run, exactly the separator and those digits are cut out. |
| DocumentIds.WithoutDate | lib/iso_bib_item/iso_bibliographic_item.rb:72-74 | `sub(/:[12]\d\d\d/, "")` (or with `-`): the id is unchanged exactly when there is no match. Otherwise it is exactly five characters shorter. |
| DocumentIds.WithoutDateCutsLeftmostMatch | lib/iso_bib_item/iso_bibliographic_item.rb:72-74 | Given the leftmost year match, exactly its five characters are cut out. |
| DocumentIds.WithoutDateNotIdempotent | lib/iso_bib_item/iso_bibliographic_item.rb:70-76 | `ISO 8601:2000:2004` loses `:2000` on the first call and `:2004` on the second. |
| DocumentIds.AllPartsTwice | lib/iso_bib_item/iso_bibliographic_item.rb:78-80 | Marking twice appends the suffix twice, so the second call changes the identifier. |
| DocumentIds.DocIdXml | lib/iso_bib_item/iso_bibliographic_item.rb:82-87 | One `docidentifier` element holding the id. It has a `type` attribute exactly when the type is not nil. |
| DocumentIds.PartRemoved | lib/iso_bib_item/iso_bibliographic_item.rb:60-68 | The value after `remove_part`: part and subpart numbers are nil, the id has its leftmost part designator removed, and putting back the old id, part and subpart gives the old value. |
| DocumentIds.DateRemoved | lib/iso_bib_item/iso_bibliographic_item.rb:70-76 | The value after `remove_date`: the id has its leftmost year token removed, and putting back the old id gives the old value. |
| DocumentIds.AllPartsMarked | lib/iso_bib_item/iso_bibliographic_item.rb:78-80 | The value after `all_parts`: the id is the old id followed by ` (all parts)`, and putting back the old id gives the old value. |
| DocumentIds.NewIdObjects | lib/iso_bib_item/iso_bibliographic_item.rb:174-177 | `docid.map { IsoDocumentId.new }`: one fresh identifier object per value, in order, none repeated, each holding its value. |
| DocumentIds.IsoDocumentId.constructor | lib/iso_bib_item/iso_bibliographic_item.rb:50-57 | Every field holds the given value. |
| DocumentIds.IsoDocumentId.RemovePart | lib/iso_bib_item/iso_bibliographic_item.rb:60-68 | Part and subpart numbers become nil, whether or not the id matched. The id loses its leftmost part designator, using the separator for its type. Project number, prefix and type are unchanged. |
| DocumentIds.IsoDocumentId.RemoveDate | lib/iso_bib_item/iso_bibliographic_item.rb:70-76 | The id loses its leftmost year token, using the separator for its type. Every other field is unchanged. |
| DocumentIds.IsoDocumentId.AllParts | lib/iso_bib_item/iso_bibliographic_item.rb:78-80 | The new id is 12 characters longer. It has the old id as a prefix and ` (all parts)` as the rest. |
| DocumentIds.RemoveIdParts | lib/iso_bib_item/iso_bibliographic_item.rb:207 | After `@docidentifier.each(&:remove_part)` each identifier object holds its old value with the part removed. |
| DocumentIds.RemoveIdDates | lib/iso_bib_item/iso_bibliographic_item.rb:222 | After `@docidentifier.each(&:remove_date)` each identifier object holds its old value with the year removed. |
| DocumentIds.MarkIdsAllParts | lib/iso_bib_item/iso_bibliographic_item.rb:208 | After `@docidentifier.each(&:all_parts)` each identifier object holds its old value marked as all parts. |
| Classification.NewIcs | lib/iso_bib_item/iso_bibliographic_item.rb:103-110 | The constructor fails, with the `ArgumentError` message, exactly when neither a code nor a field is given. A code is split on `.` into field, group and subgroup, which override the keywords. Without a code, the keywords are kept. |
| Classification.DottedCodeSplits | lib/iso_bib_item/iso_bibliographic_item.rb:108 | `a.b.c` with dot-free parts and a non-empty `c` gives field `a`, group `b` and subgroup `c`. |
| Classification.ExampleCode | lib/iso_bib_item/iso_bibliographic_item.rb:103-110 | `35.240.70` given dotted and given as separate values yield the same classification. |
| BibliographicItems.BaseId | lib/iso_bib_item/iso_bibliographic_item.rb:267-268 | The result is `IEV` for the IEV project. Otherwise it is the id with every `:` replaced by `-`. It never contains a colon. |
| BibliographicItems.MakeId | lib/iso_bib_item/iso_bibliographic_item.rb:261-271 | `makeid(nil, true)` is nil exactly when the id attribute is disabled. It requires a non-DOI identifier, without which the code fails. |
| BibliographicItems.MakeIdUsesFirstNonDoi | lib/iso_bib_item/iso_bibliographic_item.rb:261-278 | The id comes from the first identifier that is not a DOI: its base id, stripped. The root attributes are then the type and this id without spaces. |
| BibliographicItems.XmlAttrs | lib/iso_bib_item/iso_bibliographic_item.rb:273-278 | `xml_attrs`: `type` first, then `id` exactly when the id attribute is enabled, holding `makeid`'s result with its spaces removed. |
| BibliographicItems.RootAttributes | lib/iso_bib_item/iso_bibliographic_item.rb:273-278 | `type` comes first. `id` follows exactly when the id attribute is enabled, even when the id is empty. The id holds no space and no colon. |
| BibliographicItems.WorkedExampleId | lib/iso_bib_item/iso_bibliographic_item.rb:261-278 | `ISO 19115-1:2014` gives the root attribute `id="ISO19115-1-2014"`. |
| BibliographicItems.AllPartsOf | lib/iso_bib_item/iso_bibliographic_item.rb:201-209 | The receiver after `to_all_parts`:<br>- One `partOf` relation is appended. It has nil identifier and url and holds the old record with the id attribute disabled.<br>- Every title has its part dropped.<br>- The abstracts are empty.<br>- Every identifier has its part removed and is then marked.<br>- The flag is set.<br>- Nothing else changes. |
| BibliographicItems.MostRecentOf | lib/iso_bib_item/iso_bibliographic_item.rb:216-223 | The receiver after `to_most_recent_reference`:<br>- One `instance` relation holding the old record with the id attribute disabled is appended.<br>- Abstracts and dates are empty.<br>- Every identifier has its year removed.<br>- Nothing else changes. |
| BibliographicItems.StoredCopyHasNoId | lib/iso_bib_item/iso_bibliographic_item.rb:202-204 | The stored copy renders without an `id` attribute. It keeps the pre-call identifiers, titles, dates and relations, so it does not contain the relation that points at it. |
| BibliographicItems.DerivationsKeepIdSource | lib/iso_bib_item/iso_bibliographic_item.rb:201-223 | Neither derivation changes which identifier the root id comes from, or whether one exists. |
| BibliographicItems.SameTypesSameIdSource | lib/iso_bib_item/iso_bibliographic_item.rb:263 | Two identifier lists whose types agree position by position pick the root id from the same position. |
| BibliographicItems.WorkedExampleAllParts | lib/iso_bib_item/iso_bibliographic_item.rb:207-208 | After `to_all_parts`, `ISO 19115-1:2014` reads `ISO 19115:2014 (all parts)`. |
| BibliographicItems.ContributorXml | lib/iso_bib_item/iso_bibliographic_item.rb:288-290 | One `contributor` element without attributes: the role nodes, then the contact nodes. |
| BibliographicItems.EditionXml | lib/iso_bib_item/iso_bibliographic_item.rb:293 | One `edition` element whose only child is the edition text. |
| BibliographicItems.NoteText | lib/iso_bib_item/iso_bibliographic_item.rb:301-303 | The `note` element has the attribute `format="text/plain"` and one text child: `ISO DATE: ` followed by the note. |
| BibliographicItems.LeadingChildren | lib/iso_bib_item/iso_bibliographic_item.rb:282-292 | One node for fetched, one per title, link, identifier, date and contributor. |
| BibliographicItems.MiddleChildren | lib/iso_bib_item/iso_bibliographic_item.rb:293-299 | The number of middle children: an edition node exactly when there is an edition, one node per language, script, abstract and relation, one status node, and a copyright node exactly when there is a copyright. The positions follow from the lemmas below. |
| BibliographicItems.MiddleHead | lib/iso_bib_item/iso_bibliographic_item.rb:293-296 | Edition, languages, scripts and abstracts: their count. |
| BibliographicItems.MiddleTail | lib/iso_bib_item/iso_bibliographic_item.rb:297-299 | Status, copyright and relations: their count. |
| BibliographicItems.EditionRendered | lib/iso_bib_item/iso_bibliographic_item.rb:293 | With an edition, the edition element is the first middle child. |
| BibliographicItems.LanguageRendered | lib/iso_bib_item/iso_bibliographic_item.rb:294 | The languages follow the edition, in order. |
| BibliographicItems.ScriptRendered | lib/iso_bib_item/iso_bibliographic_item.rb:295 | The scripts follow the languages, in order. |
| BibliographicItems.AbstractRendered | lib/iso_bib_item/iso_bibliographic_item.rb:296 | The abstracts follow the scripts, in order. |
| BibliographicItems.StatusRendered | lib/iso_bib_item/iso_bibliographic_item.rb:297-298 | The status follows the abstracts, and the copyright, when present, comes right after it. |
| BibliographicItems.RelationRendered | lib/iso_bib_item/iso_bibliographic_item.rb:299 | The relations come last among the middle children, in order. |
| BibliographicItems.TrailingChildren | lib/iso_bib_item/iso_bibliographic_item.rb:300-306 | The number of trailing children: a workgroup node exactly when there is a workgroup, a note exactly when the option is given, one node per classification code, the marker exactly when the flag is set, then the extra content. |
| BibliographicItems.WorkgroupRendered | lib/iso_bib_item/iso_bibliographic_item.rb:300 | With a workgroup, its node is the first trailing child. |
| BibliographicItems.Children | lib/iso_bib_item/iso_bibliographic_item.rb:281-307 | The number of `bibitem` children. It counts each optional element exactly when its condition holds. |
| BibliographicItems.MiddlePlaced | lib/iso_bib_item/iso_bibliographic_item.rb:281-307 | The middle children follow the leading children directly, in order. |
| BibliographicItems.TrailingPlaced | lib/iso_bib_item/iso_bibliographic_item.rb:281-307 | The trailing children follow the middle children directly, in order. |
| BibliographicItems.BibItemXml | lib/iso_bib_item/iso_bibliographic_item.rb:280-308 | `render_xml`: one `bibitem` element whose attributes are `xml_attrs` and whose children are the leading, middle and trailing children. |
| BibliographicItems.Optional | lib/iso_bib_item/iso_bibliographic_item.rb:293 | An optional element is rendered exactly when it is present. |
| BibliographicItems.TitlesRenderedFirst | lib/iso_bib_item/iso_bibliographic_item.rb:282-283 | `fetched` is the first child, and the titles follow it in order. |
| BibliographicItems.IdentifiersRenderedAfterLinks | lib/iso_bib_item/iso_bibliographic_item.rb:282-285 | The identifier elements come right after the titles and links, in order. |
| BibliographicItems.LeadingIds | lib/iso_bib_item/iso_bibliographic_item.rb:282-285 | The identifiers' positions within the leading children. |
| BibliographicItems.ExtraRenderedLast | lib/iso_bib_item/iso_bibliographic_item.rb:306 | The block's content comes last. |
| BibliographicItems.AllPartsMarkerRendered | lib/iso_bib_item/iso_bibliographic_item.rb:305-306 | With the flag set, `allparts` comes right before the block's content. |
| BibliographicItems.NoteRendered | lib/iso_bib_item/iso_bibliographic_item.rb:300-303 | With the note option, the note element comes right after the workgroup, or first in the trailing segment when there is no workgroup. |
| BibliographicItems.IcsRenderedAfterNote | lib/iso_bib_item/iso_bibliographic_item.rb:301-304 | With the note option, the classification codes come right after the note, one node each, in order. |
| BibliographicItems.TrailingNote | lib/iso_bib_item/iso_bibliographic_item.rb:300-303 | The note's position within the trailing children. |
| BibliographicItems.TrailingIcs | lib/iso_bib_item/iso_bibliographic_item.rb:301-304 | The codes' positions within the trailing children. |
| BibliographicItems.IsoBibliographicItem.constructor | lib/iso_bib_item/iso_bibliographic_item.rb:167-194 | The constructor does the following:<br>- It creates one fresh identifier object per identifier and one fresh title object per title, with no object repeated.<br>- Blank main titles become the placeholder.<br>- Edition, type, status, workgroup, classification codes and links are stored as given, and so are the fields the base class keeps (language, script, dates, abstracts, contributors, relations, copyright, `fetched`).<br>- The id attribute starts enabled and the all-parts flag unset. |
| BibliographicItems.IsoBibliographicItem.DisableIdAttribute | lib/iso_bib_item/iso_bibliographic_item.rb:196-198 | The id attribute is disabled and nothing else changes. |
| BibliographicItems.IsoBibliographicItem.ToAllParts | lib/iso_bib_item/iso_bibliographic_item.rb:201-210 | The record's new value is `AllPartsOf` of its old value. It keeps the same identifier and title objects, edited in place. |
| BibliographicItems.IsoBibliographicItem.ReduceToAllParts | lib/iso_bib_item/iso_bibliographic_item.rb:205-209 | Titles lose their parts, abstracts are emptied, and identifiers lose their parts and are marked. The flag is set and nothing else changes. |
| BibliographicItems.IsoBibliographicItem.IdsToAllParts | lib/iso_bib_item/iso_bibliographic_item.rb:207-209 | Identifiers lose their parts and are then marked. The flag is set and nothing else changes. |
| BibliographicItems.IsoBibliographicItem.MarkAllParts | lib/iso_bib_item/iso_bibliographic_item.rb:208-209 | Identifiers are marked and the flag is set. Nothing else changes. |
| BibliographicItems.IsoBibliographicItem.ToMostRecentReference | lib/iso_bib_item/iso_bibliographic_item.rb:216-223 | The record's new value is `MostRecentOf` of its old value. It keeps the same objects, edited in place. |
| BibliographicItems.IsoBibliographicItem.ReduceToMostRecent | lib/iso_bib_item/iso_bibliographic_item.rb:220-222 | Abstracts and dates are emptied and identifiers lose their years. Nothing else changes. |
| BibliographicItems.IsoBibliographicItem.Title | lib/iso_bib_item/iso_bibliographic_item.rb:227-233 | With no language, the result is the whole list of title objects. With a language, it is the first title object in that language, or nil exactly when there is none. |
| BibliographicItems.IsoBibliographicItem.Url | lib/iso_bib_item/iso_bibliographic_item.rb:237-239 | The content of the first link of the type, `src` by default. |
| BibliographicItems.IsoBibliographicItem.ToXml | lib/iso_bib_item/iso_bibliographic_item.rb:242-250 | With a builder, the result is the `bibitem` element of the record's current value: its root attributes, and its children in the order above. |
| BibliographicItems.IsoBibliographicItem.LeadingXml | lib/iso_bib_item/iso_bibliographic_item.rb:282-292 | Appending fetched, titles, links, identifiers, dates and contributors yields the leading children. |
| BibliographicItems.IsoBibliographicItem.MiddleXml | lib/iso_bib_item/iso_bibliographic_item.rb:293-299 | Appending edition, languages, scripts, abstracts, status, copyright and relations yields the middle children. |
| BibliographicItems.IsoBibliographicItem.TrailingXml | lib/iso_bib_item/iso_bibliographic_item.rb:300-306 | Appending workgroup, note, classification codes, marker and extra content yields the trailing children. |

## Left out

- The model stops at the XML tree. Nokogiri's builder is not modelled, and neither is serialisation to a UTF-8 string for `to_xml` without a builder.
- `DeepClone.clone` is modelled as the record's value (`Record`), stored in the new relation. The copy never shares mutable state with the receiver, which is the deep copy's purpose. Object identity inside the copy is not modelled.
- `Isoics::ICS` is not part of this model: the lookup of a code's description, the `code` accessor and `Ics#to_xml`. A classification code is its three components, and it renders through a parameter.
- The superclass `BibliographicItem` is not part of this model. Neither are the collaborators it and the constructor build: `TypedUri`, `DocumentRelation`, `FormattedString`, `ContributionInfo`, `IsoDocumentStatus`, `IsoProjectGroup` and the dates. Their rendered nodes, or rendering functions, are inputs. `shortref`, `abstract(lang:)` and `relations.replaces` live there.
- The render options passed on to each date's `to_xml` are not modelled. Dates are given as the nodes they render to.
- The constructor duck-types its input: each list element may be a Hash or a ready-made object, and a single identifier may stand in for a list. The model takes identifier values, title arguments and classification values directly. A single identifier is a one-element sequence.
- The `Array#filter` extension is not modelled. Nothing in the modelled core calls it.
- `contributor.rb` is not part of this model.
- `tc_document_number` is not modelled. The constructor never sets it.
- Numbers given as integers (ICS field, group and subgroup; project numbers) are modelled as their strings.
- `makeid`'s `id` and `delim` parameters are not modelled. The core only calls `makeid(nil, true)`.
- BibliographicItems.MakeId: requires a non-DOI identifier when the id attribute is enabled. Without one, the code fails with `NoMethodError` on nil, and the model does not represent that failure.
- BibliographicItems.IsoBibliographicItem.ToXml: requires the same condition as `MakeId`, for the same reason.
- BibliographicItems.IsoBibliographicItem.Url: requires a link of the asked type. Without one, the code fails with `NoMethodError` on nil.
- BibliographicItems.IsoBibliographicItem.ToAllParts: requires that no identifier object and no title object appear twice in the record (`Valid`). A list holding the same object twice would be edited twice, and that aliasing is not modelled.
- BibliographicItems.IsoBibliographicItem.ToMostRecentReference: requires the same `Valid` condition as `ToAllParts`.
- Optional scalars that the core tests for nil (edition, workgroup, copyright, note, identifier type, title intro and part, the ICS fields) are `Option`s. List-valued arguments are never nil, and the code would fail on a nil list.
- `DocId.id`, `TitleValue.language`, `TitleValue.script`, `Record.docType` and `Record.status` are plain values, so the model assumes they are never nil. In the code a nil identifier id makes `remove_part`, `remove_date`, `all_parts` and `makeid` raise `NoMethodError` (`iso_bibliographic_item.rb` lines 56, 64-66, 72-74, 79 and 267). An identifier given without an `id` is therefore not modelled.
- BibliographicItems.IsoBibliographicItem.constructor: takes `fetched` as the value the base class `BibliographicItem` holds. The code does not pass a `fetched:` argument on to the base class (lines 168-173), so it comes from the base class, which is not part of this model.
