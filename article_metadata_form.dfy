/**
 * The metadata form of one ungrouped file: its validation rules, its default
 * values, the validity it reports, the one-time prefill from the file's
 * analysis, the cover-image checks and the multi-select checkboxes.
 */
module ArticleMetadataForm {
  import opened Wrappers
  import opened Strings
  import opened Seqs
  import opened ArticleModels
  import opened FileUploadPoll

  const MinTitleLength: nat := 3
  const MinDescriptionLength: nat := 10
  const MinPageCount: int := 1

  /** The values the form watches and reports. */
  datatype SingleFormValues = SingleFormValues(
    title: string,
    description: string,
    pageCount: int,
    coverImage: Option<string>,
    shared: SharedFields)

  /**
   * The rules both metadata forms apply to the shared fields: a revoked date and
   * the six ids are required (non-empty; they are not checked against the
   * lookup lists) and each of the three lists needs one element.
   */
  predicate SharedValid(s: SharedFields) {
    s.revokedAt != "" &&
    s.mediaId != "" && s.sourceId != "" && s.languageId != "" &&
    s.educationalMethodologyId != "" && s.educationalFrameworkId != "" && s.educationalToolId != "" &&
    |s.articleBusinessUnits| >= 1 && |s.articleCourses| >= 1 && |s.articleRegions| >= 1
  }

  /** The title, description and page-count rules shared with each member of a group. */
  predicate DocumentDetailsValid(title: string, description: string, pageCount: int) {
    |title| >= MinTitleLength && |description| >= MinDescriptionLength && pageCount >= MinPageCount
  }

  /** `articleSchema`; the cover image is optional. */
  predicate ArticleValid(v: SingleFormValues) {
    DocumentDetailsValid(v.title, v.description, v.pageCount) && SharedValid(v.shared)
  }

  /** The shared defaults of both forms; the revoked date (three years ahead) is an input. */
  function DefaultShared(revokedAt: string): (s: SharedFields)
    ensures !SharedValid(s)
  {
    SharedFields(revokedAt, false, false, "", "", "", "", "", "", [], [], [])
  }

  /** `defaultValues`: the title starts as the file name. */
  function DefaultValues(fileName: string, revokedAt: string): (v: SingleFormValues)
    ensures v.title == fileName && v.pageCount == MinPageCount
    ensures !ArticleValid(v)
  {
    SingleFormValues(fileName, "", 1, Some(""), DefaultShared(revokedAt))
  }

  /** `isDirty == true ? isValid : undefined` */
  function ReportedValidity(isDirty: bool, isValid: bool): (r: Option<bool>)
    ensures r.None? <==> !isDirty
    ensures r == Some(true) <==> isDirty && isValid
    ensures r == Some(false) <==> isDirty && !isValid
  {
    if isDirty then Some(isValid) else None
  }

  /** Only truthy analysis fields overwrite: a non-empty title or description, a non-zero page count. */
  function ApplyAnalysis(v: SingleFormValues, a: FileAnalysis): (r: SingleFormValues)
    ensures r.coverImage == v.coverImage && r.shared == v.shared
  {
    v.(title := OrElse(a.title, v.title),
       description := OrElse(a.description, v.description),
       pageCount := if a.pages != 0 then a.pages else v.pageCount)
  }

  /** The analysis of the file, when its status entry is known and is not processing. */
  function ReadyAnalysis(fileUuid: Option<string>, statuses: map<string, FileStatus>): (r: Option<FileAnalysis>)
    ensures r.Some? ==>
      fileUuid.Some? && fileUuid.value in statuses &&
      statuses[fileUuid.value].status != Processing && statuses[fileUuid.value].analysis == r
  {
    if fileUuid.Some? && fileUuid.value in statuses
       && statuses[fileUuid.value].analysis.Some? && statuses[fileUuid.value].status != Processing
    then statuses[fileUuid.value].analysis
    else None
  }

  /** The prefill effect: the guard and the values afterwards. */
  function AnalysisEffect(applied: bool, v: SingleFormValues, fileUuid: Option<string>,
                          statuses: map<string, FileStatus>): (bool, SingleFormValues)
  {
    var a := ReadyAnalysis(fileUuid, statuses);
    if a.Some? && !applied then (true, ApplyAnalysis(v, a.value)) else (applied, v)
  }

  /**
   * The guard makes the prefill happen at most once: once applied, later status
   * changes never touch the values, so edits made after the prefill persist.
   */
  lemma {:induction false} AnalysisAppliedOnce(v: SingleFormValues, fileUuid: Option<string>,
                                               first: map<string, FileStatus>, edit: SingleFormValues,
                                               later: seq<map<string, FileStatus>>)
    ensures var e := AnalysisEffect(false, v, fileUuid, first);
      e.0 <==> ReadyAnalysis(fileUuid, first).Some?
    ensures AnalysisEffect(false, v, fileUuid, first).0 ==> RunEffects(true, edit, fileUuid, later) == (true, edit)
    decreases |later|
  {
    if later != [] {
      AnalysisAppliedOnce(v, fileUuid, first, edit, later[1..]);
    }
  }

  /** The prefill effect run once per status change, in order. */
  function RunEffects(applied: bool, v: SingleFormValues, fileUuid: Option<string>,
                      statuses: seq<map<string, FileStatus>>): (bool, SingleFormValues)
    decreases |statuses|
  {
    if statuses == [] then (applied, v)
    else
      var e := AnalysisEffect(applied, v, fileUuid, statuses[0]);
      RunEffects(e.0, e.1, fileUuid, statuses[1..])
  }

  /** A file without an identifier, or still processing, is never prefilled. */
  lemma NoPrefillWhileProcessing(v: SingleFormValues, fileUuid: Option<string>, statuses: map<string, FileStatus>)
    requires fileUuid.None? || (fileUuid.value in statuses && statuses[fileUuid.value].status == Processing)
    ensures AnalysisEffect(false, v, fileUuid, statuses) == (false, v)
  {
  }

  /** A completed analysis with every field set overwrites title, description and page count. */
  lemma PrefillUsesAnalysis(v: SingleFormValues, uuid: string, statuses: map<string, FileStatus>)
    requires uuid in statuses && statuses[uuid].status == Completed && statuses[uuid].analysis.Some?
    requires var a := statuses[uuid].analysis.value; a.title != "" && a.description != "" && a.pages != 0
    ensures var a := statuses[uuid].analysis.value;
      var r := AnalysisEffect(false, v, Some(uuid), statuses).1;
      r.title == a.title && r.description == a.description && r.pageCount == a.pages
  {
  }

  // ----- cover image -----

  /** `2 * 1024 * 1024` bytes. */
  const MaxCoverSize: int := 2 * 1024 * 1024
  const AllowedCoverTypes: seq<string> := ["image/jpeg", "image/jpg", "image/png", "image/webp"]

  datatype CoverFile = CoverFile(name: string, size: int, mimeType: string)

  datatype CoverCheck = TooLarge | UnsupportedType | Accepted

  /** The size is checked first, then the type. */
  function CheckCover(f: CoverFile): (r: CoverCheck)
    ensures r == Accepted <==> f.size <= MaxCoverSize && f.mimeType in AllowedCoverTypes
    ensures r == TooLarge <==> f.size > MaxCoverSize
  {
    if f.size > MaxCoverSize then TooLarge
    else if f.mimeType !in AllowedCoverTypes then UnsupportedType
    else Accepted
  }

  /** Exactly 2 MB is still accepted; one byte more is not. */
  lemma CoverSizeBoundary(name: string)
    ensures CheckCover(CoverFile(name, 2097152, "image/png")) == Accepted
    ensures CheckCover(CoverFile(name, 2097153, "image/png")) == TooLarge
    ensures CheckCover(CoverFile(name, 2097153, "image/gif")) == TooLarge
    ensures CheckCover(CoverFile(name, 10, "image/gif")) == UnsupportedType
  {
  }

  /** The alert shown for a rejected cover of the single-file form. */
  function CoverAlert(r: CoverCheck): (m: string)
    requires r != Accepted
  {
    if r == TooLarge then "Cover image must be smaller than 2MB" else "Please select a JPEG, PNG, or WebP image"
  }

  /** `result.split(',')[1]`: the second comma-separated piece of the data URL, if any. */
  function DataUrlPayload(url: string): (r: Option<string>)
    ensures r.None? <==> ',' !in url
    ensures r.Some? ==> ',' !in r.value
  {
    var pieces := Split(url, ',');
    SplitPiecesFree(url, ',');
    if |pieces| >= 2 then Some(pieces[1])
    else
      assert url == pieces[0];
      None
  }

  /**
   * For a data URL `data:<type>;base64,<payload>` (section 3 of RFC 2397) the
   * stored value is the payload.
   */
  lemma DataUrlPayloadIsData(header: string, payload: string)
    requires ',' !in header && ',' !in payload
    ensures DataUrlPayload(header + "," + payload) == Some(payload)
  {
    var url := header + "," + payload;
    assert url[|header|] == ',' && url[..|header|] == header;
    IndexOfUnique(url, ',', |header|);
    assert url[|header| + 1..] == payload;
    assert Split(url, ',') == [header, payload];
  }

  // ----- multi-select checkboxes -----

  /** `checked ? [...current, id] : current.filter(x => x !== id)` */
  function Toggle(current: seq<string>, id: string, checked: bool): (r: seq<string>)
  {
    if checked then current + [id] else Filter(current, x => x != id)
  }

  /** Checking adds the id (at the end, even when already present); unchecking removes every occurrence and nothing else. */
  lemma ToggleMembership(current: seq<string>, id: string, checked: bool, x: string)
    ensures checked ==> Toggle(current, id, checked) == current + [id]
    ensures checked ==> (x in Toggle(current, id, checked) <==> x in current || x == id)
    ensures !checked ==> (x in Toggle(current, id, checked) <==> x in current && x != id)
    ensures !checked ==> |Toggle(current, id, checked)| <= |current|
  {
  }

  /** Unchecking leaves a list without duplicates free of duplicates. */
  lemma UncheckKeepsDistinct(current: seq<string>, id: string)
    requires Distinct(current)
    ensures Distinct(Toggle(current, id, false))
  {
    FilterDistinct(current, x => x != id);
  }

  datatype ListField = BusinessUnits | Courses | Regions

  function ToggleShared(s: SharedFields, field: ListField, id: string, checked: bool): (r: SharedFields)
    ensures r.revokedAt == s.revokedAt && r.mediaId == s.mediaId && r.sourceId == s.sourceId
    ensures field != BusinessUnits ==> r.articleBusinessUnits == s.articleBusinessUnits
    ensures field != Courses ==> r.articleCourses == s.articleCourses
    ensures field != Regions ==> r.articleRegions == s.articleRegions
  {
    match field
    case BusinessUnits => s.(articleBusinessUnits := Toggle(s.articleBusinessUnits, id, checked))
    case Courses => s.(articleCourses := Toggle(s.articleCourses, id, checked))
    case Regions => s.(articleRegions := Toggle(s.articleRegions, id, checked))
  }

  /** Unchecking the only selected item of a list makes a record invalid. */
  lemma UncheckLastMakesInvalid(v: SingleFormValues, field: ListField, id: string)
    requires field == BusinessUnits ==> v.shared.articleBusinessUnits == [id]
    requires field == Courses ==> v.shared.articleCourses == [id]
    requires field == Regions ==> v.shared.articleRegions == [id]
    ensures !ArticleValid(v.(shared := ToggleShared(v.shared, field, id, false)))
  {
    var p := (x: string) => x != id;
    assert Filter([id], p) == [] by {
      assert [id][1..] == [];
    }
  }

  /** Page-count input without digits is 0, which fails the rule. */
  lemma NonNumericPageCountInvalid(v: SingleFormValues, input: string)
    requires DigitsAfterSign(TrimStart(input)) == ""
    ensures !ArticleValid(v.(pageCount := ParseIntOrZero(input)))
  {
  }

  /** Typing a page count as decimal digits stores that number. */
  lemma PageCountInputRoundTrip(v: SingleFormValues, n: nat)
    ensures v.(pageCount := ParseIntOrZero(NatToString(n))).pageCount == n
  {
    ParseNatToString(n);
  }

  /** What `onChange(fileName, watchedValues)` stores for the file. */
  function AsMetadata(fileName: string, v: SingleFormValues): (m: ArticleMetadata)
    ensures m.id == fileName && m.fileMetadata.None?
    ensures m.title == Some(v.title) && m.description == Some(v.description) && m.pageCount == Some(v.pageCount)
  {
    ArticleMetadata(fileName, Some(v.title), Some(v.description), Some(v.pageCount), v.coverImage, v.shared, None)
  }

  /** The form's state: its values, the apply-once guard and the chosen cover file and preview. */
  class SingleMetadataForm {
    const fileName: string
    const fileUuid: Option<string>
    var values: SingleFormValues
    var analysisApplied: bool
    var coverFile: Option<CoverFile>
    var coverPreview: Option<string>

    constructor (fileName: string, fileUuid: Option<string>, revokedAt: string)
      ensures this.fileName == fileName && this.fileUuid == fileUuid
      ensures values == DefaultValues(fileName, revokedAt) && !analysisApplied
      ensures coverFile.None? && coverPreview.None?
    {
      this.fileName := fileName;
      this.fileUuid := fileUuid;
      values := DefaultValues(fileName, revokedAt);
      analysisApplied := false;
      coverFile := None;
      coverPreview := None;
    }

    /** The prefill effect, run when the status map changes; the guard is set before the writes. */
    method OnFileStatuses(statuses: map<string, FileStatus>)
      modifies this
      ensures (analysisApplied, values) == AnalysisEffect(old(analysisApplied), old(values), fileUuid, statuses)
      ensures coverFile == old(coverFile) && coverPreview == old(coverPreview)
    {
      var analysis := ReadyAnalysis(fileUuid, statuses);
      if analysis.Some? && !analysisApplied {
        analysisApplied := true;
        var a := analysis.value;
        if a.title != "" {
          values := values.(title := a.title);
        }
        if a.description != "" {
          values := values.(description := a.description);
        }
        if a.pages != 0 {
          values := values.(pageCount := a.pages);
        }
      }
    }

    /** `parseInt(e.target.value) || 0` */
    method HandlePageCountInput(input: string)
      modifies this
      ensures values == old(values).(pageCount := ParseIntOrZero(input))
      ensures analysisApplied == old(analysisApplied) && coverFile == old(coverFile) && coverPreview == old(coverPreview)
    {
      values := values.(pageCount := ParseIntOrZero(input));
    }

    method HandleListCheckbox(field: ListField, id: string, checked: bool)
      modifies this
      ensures values == old(values).(shared := ToggleShared(old(values).shared, field, id, checked))
      ensures analysisApplied == old(analysisApplied) && coverFile == old(coverFile) && coverPreview == old(coverPreview)
    {
      values := values.(shared := ToggleShared(values.shared, field, id, checked));
    }

    /**
     * A chosen cover file: rejected files change nothing; an accepted one becomes
     * the cover file with its preview URL, and the reader's data URL supplies the value.
     */
    method HandleCoverFileChange(file: CoverFile, previewUrl: string, dataUrl: string) returns (r: CoverCheck)
      modifies this
      ensures r == CheckCover(file)
      ensures r != Accepted ==>
        values == old(values) && coverFile == old(coverFile) && coverPreview == old(coverPreview)
      ensures r == Accepted ==>
        coverFile == Some(file) && coverPreview == Some(previewUrl) &&
        values == old(values).(coverImage := DataUrlPayload(dataUrl))
      ensures analysisApplied == old(analysisApplied)
    {
      r := CheckCover(file);
      if r == Accepted {
        coverFile := Some(file);
        coverPreview := Some(previewUrl);
        values := values.(coverImage := DataUrlPayload(dataUrl));
      }
    }

    /** Clears the file and preview; the form's cover value stays. */
    method RemoveCoverImage()
      modifies this
      ensures coverFile.None? && coverPreview.None?
      ensures values == old(values) && analysisApplied == old(analysisApplied)
    {
      coverFile := None;
      if coverPreview.Some? {
        coverPreview := None;
      }
    }
  }
}
