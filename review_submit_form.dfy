/**
 * The review step: every file's card shows its stored metadata, with names
 * looked up for ids, per-file values preferred over the record's, and
 * "Not provided" for anything falsy.
 */
module ReviewSubmitForm {
  import opened Wrappers
  import opened Strings
  import opened Seqs
  import opened Registry
  import opened ArticleModels

  const NotProvided: string := "Not provided"
  const UnknownName: string := "Unknown"

  function OptionId(e: IdWithName): string { e.id }

  /** `getNameFromId`: an empty id is not provided, a missing one unknown. */
  function NameFromId(id: string, collection: seq<IdWithName>): (r: string)
    ensures id == "" ==> r == NotProvided
    ensures id != "" && Lookup(collection, OptionId, id).Some? ==> r == Lookup(collection, OptionId, id).value.name
    ensures id != "" && Lookup(collection, OptionId, id).None? ==> r == UnknownName
    ensures id != "" && (forall i :: 0 <= i < |collection| ==> collection[i].id != id) ==> r == UnknownName
  {
    if id == "" then NotProvided
    else
      var item := Lookup(collection, OptionId, id);
      if item.Some? then item.value.name else UnknownName
  }

  /** The first matching entry names the id: a later entry with the same id is never shown. */
  lemma FirstNameWins(collection: seq<IdWithName>, i: nat)
    requires i < |collection| && collection[i].id != ""
    requires forall j :: 0 <= j < i ==> collection[j].id != collection[i].id
    ensures NameFromId(collection[i].id, collection) == collection[i].name
  {
    var p := KeyIs(OptionId, collection[i].id);
    assert p(collection[i]);
    assert FindIndex(collection, p) == i;
  }

  /** A single-value cell: the looked-up name, or "Not provided" when that is empty. */
  function IdCell(id: string, collection: seq<IdWithName>): (r: string)
    ensures r != ""
    ensures id == "" ==> r == NotProvided
  {
    OrElse(NameFromId(id, collection), NotProvided)
  }

  function NameLookup(collection: seq<IdWithName>): string -> string {
    id => NameFromId(id, collection)
  }

  /** A list cell: the names joined with `", "`, or "Not provided" for an empty list. */
  function ListCell(ids: seq<string>, collection: seq<IdWithName>): (r: string)
    ensures ids == [] ==> r == NotProvided
    ensures r != ""
  {
    OrElse(Join(Map(ids, NameLookup(collection)), ", "), NotProvided)
  }

  /** One id's cell is its single-value cell; two ids are joined around the separator. */
  lemma ListCellShapes(a: string, b: string, collection: seq<IdWithName>)
    ensures ListCell([a], collection) == IdCell(a, collection)
    ensures ListCell([a, b], collection) == NameFromId(a, collection) + ", " + NameFromId(b, collection)
  {
    var m := Map([a, b], NameLookup(collection));
    assert m[1..] == [NameFromId(b, collection)];
    assert Join(m, ", ") == NameFromId(a, collection) + ", " + NameFromId(b, collection);
    assert Join(Map([a], NameLookup(collection)), ", ") == NameFromId(a, collection);
  }

  /** `value ? 'Yes' : 'No'` */
  function YesNo(b: bool): (r: string)
    ensures r == "Yes" <==> b
    ensures r == "No" <==> !b
  {
    if b then "Yes" else "No"
  }

  /** `getFileMetadata`: the first per-file entry for this id, or none without an array. */
  function FileMetadataFor(formData: ArticleMetadata, id: string): (r: Option<FileMetadata>)
    ensures formData.fileMetadata.None? ==> r.None?
    ensures r.Some? ==> r.value in formData.fileMetadata.value && r.value.fileId == id
  {
    if formData.fileMetadata.Some? then Find(formData.fileMetadata.value, (m: FileMetadata) => m.fileId == id)
    else None
  }

  /** Page counts are shown as numbers; a falsy one falls through to the record, then to "Not provided". */
  datatype PageCountCell = PageNumber(n: int) | PageNotProvided

  /** The fields the card resolves through a fallback chain. */
  datatype ReviewedDocument = ReviewedDocument(title: string, description: string, pageCount: PageCountCell, coverImage: string)

  function PerFileText(m: Option<FileMetadata>, field: FileMetadata -> string): Option<string> {
    if m.Some? then Some(field(m.value)) else None
  }

  function TitleOf(m: FileMetadata): string { m.title }
  function DescriptionOf(m: FileMetadata): string { m.description }

  /** `fileMetadata?.x || formData.x || 'Not provided'`, field by field. */
  function ResolveDocument(formData: ArticleMetadata, id: string): (r: ReviewedDocument)
    ensures var m := FileMetadataFor(formData, id);
      (m.Some? && m.value.title != "" ==> r.title == m.value.title) &&
      ((m.None? || m.value.title == "") ==> r.title == TextOr(formData.title, NotProvided)) &&
      (m.Some? && m.value.pageCount != 0 ==> r.pageCount == PageNumber(m.value.pageCount)) &&
      (r.pageCount == PageNotProvided <==>
         (m.None? || m.value.pageCount == 0) && (formData.pageCount.None? || formData.pageCount.value == 0))
    ensures r.title != "" && r.description != "" && r.coverImage != ""
    ensures r.pageCount.PageNumber? ==> r.pageCount.n != 0
  {
    var m := FileMetadataFor(formData, id);
    var pages :=
      if m.Some? && m.value.pageCount != 0 then PageNumber(m.value.pageCount)
      else if formData.pageCount.Some? && formData.pageCount.value != 0 then PageNumber(formData.pageCount.value)
      else PageNotProvided;
    ReviewedDocument(
      TextOr(PerFileText(m, TitleOf), TextOr(formData.title, NotProvided)),
      TextOr(PerFileText(m, DescriptionOf), TextOr(formData.description, NotProvided)),
      pages,
      TextOr(if m.Some? then m.value.coverImage else None, TextOr(formData.coverImage, NotProvided)))
  }

  /** The lookup collections the card receives. */
  datatype Collections = Collections(
    medias: seq<IdWithName>, sources: seq<IdWithName>, methodologies: seq<IdWithName>,
    tools: seq<IdWithName>, languages: seq<IdWithName>, regions: seq<IdWithName>,
    courses: seq<IdWithName>, businessUnits: seq<IdWithName>)

  /** Every text cell of an expanded card, in display order. */
  datatype ReviewCard = ReviewCard(
    fileName: string, tool: string, title: string, language: string, pageCount: PageCountCell,
    businessUnits: string, revokedAt: string, courses: string, media: string, regions: string,
    source: string, internalUseOnly: string, methodology: string, aiGenerated: string, description: string)

  /** The card of the file with this id and name, from the record it was given. */
  function Card(id: string, fileName: string, formData: ArticleMetadata, c: Collections): (r: ReviewCard)
    ensures r.title == ResolveDocument(formData, id).title && r.description == ResolveDocument(formData, id).description
    ensures r.revokedAt == OrElse(formData.shared.revokedAt, NotProvided)
    ensures r.internalUseOnly == YesNo(formData.shared.internalUseOnly) && r.aiGenerated == YesNo(formData.shared.aiGenerated)
    ensures r.businessUnits == ListCell(formData.shared.articleBusinessUnits, c.businessUnits)
    ensures r.media == IdCell(formData.shared.mediaId, c.medias)
    ensures r.fileName == fileName
  {
    var sh := formData.shared;
    var doc := ResolveDocument(formData, id);
    ReviewCard(
      fileName, IdCell(sh.educationalToolId, c.tools), doc.title, IdCell(sh.languageId, c.languages), doc.pageCount,
      ListCell(sh.articleBusinessUnits, c.businessUnits), OrElse(sh.revokedAt, NotProvided),
      ListCell(sh.articleCourses, c.courses), IdCell(sh.mediaId, c.medias), ListCell(sh.articleRegions, c.regions),
      IdCell(sh.sourceId, c.sources), YesNo(sh.internalUseOnly), IdCell(sh.educationalMethodologyId, c.methodologies),
      YesNo(sh.aiGenerated), doc.description)
  }

  /**
   * A grouped file's card reads the group's record under its own name: when
   * the per-file ids are distinct, member `i` sees exactly entry `i`.
   */
  lemma GroupMemberSeesOwnEntry(formData: ArticleMetadata, i: nat)
    requires formData.fileMetadata.Some? && i < |formData.fileMetadata.value|
    requires UniqueKeys(formData.fileMetadata.value, (m: FileMetadata) => m.fileId)
    ensures FileMetadataFor(formData, formData.fileMetadata.value[i].fileId) == Some(formData.fileMetadata.value[i])
  {
    var fm := formData.fileMetadata.value;
    var id := fm[i].fileId;
    var p := (m: FileMetadata) => m.fileId == id;
    assert p(fm[i]);
    assert FindIndex(fm, p) == i;
  }

  /** `formData.reduce((acc, item) => { acc[item.id] = item }, {})`: a later entry overwrites an earlier one. */
  function ToRecord(formData: seq<ArticleMetadata>): (r: map<string, ArticleMetadata>)
    ensures r.Keys == set i | 0 <= i < |formData| :: formData[i].id
    decreases |formData|
  {
    if formData == [] then map[]
    else
      var init := formData[..|formData| - 1];
      var r := ToRecord(init);
      assert forall i :: 0 <= i < |init| ==> init[i] == formData[i];
      r[Last(formData).id := Last(formData)]
  }

  /** With unique ids (as the wizard's upserts keep them), the record holds exactly the entry a lookup finds. */
  lemma {:induction false} ToRecordAgreesWithLookup(formData: seq<ArticleMetadata>, id: string)
    requires UniqueKeys(formData, (m: ArticleMetadata) => m.id)
    ensures id in ToRecord(formData) <==> Lookup(formData, (m: ArticleMetadata) => m.id, id).Some?
    ensures id in ToRecord(formData) ==> ToRecord(formData)[id] == Lookup(formData, (m: ArticleMetadata) => m.id, id).value
    decreases |formData|
  {
    var key := (m: ArticleMetadata) => m.id;
    LookupIffKey(formData, key, id);
    if formData != [] {
      var init := formData[..|formData| - 1];
      var n := |formData| - 1;
      assert UniqueKeys(init, key) by {
        assert forall i :: 0 <= i < |init| ==> init[i] == formData[i];
      }
      ToRecordAgreesWithLookup(init, id);
      LookupIffKey(init, key, id);
      if id == formData[n].id {
        var p := KeyIs(key, id);
        assert p(formData[n]);
        assert FindIndex(formData, p) == n;
      } else if id in ToRecord(init) {
        var p := KeyIs(key, id);
        var k := FindIndex(init, p);
        assert init[k] == formData[k];
        assert FindIndex(formData, p) == k;
      }
    }
  }

  /** Where ids repeat, the review shows the last entry while a lookup finds the first. */
  lemma DuplicateIdLastWins(a: ArticleMetadata, b: ArticleMetadata)
    requires a.id == b.id
    ensures ToRecord([a, b])[a.id] == b
    ensures Lookup([a, b], (m: ArticleMetadata) => m.id, a.id) == Some(a)
  {
    assert [a, b][..1] == [a];
    assert [a][..0] == [];
    var p := KeyIs((m: ArticleMetadata) => m.id, a.id);
    assert p(a);
  }
}
