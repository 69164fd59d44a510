/**
 * The article edit form: its initial state derived from the stored article,
 * the field handlers, the relevance selects, and the submit run of five
 * PUT requests that stops at the first one that fails.
 */
module EditArticleForm {
  import opened Wrappers
  import opened Strings
  import opened Seqs
  import opened ArticleMetadataForm

  /** A job-title skill the form lists, by its id. */
  datatype JobTitleSkill = JobTitleSkill(id: string, skillId: string)

  /** A stored relevance of one job-title skill. */
  datatype StoredRelevance = StoredRelevance(jobTitleSkillId: string, relevance: int)

  /**
   * The stored article as the form receives it; every field may be missing.
   * The list fields hold the ids already taken out of their link records.
   */
  datatype StoredArticle = StoredArticle(
    id: string,
    title: Option<string>,
    description: Option<string>,
    duration: Option<int>,
    internalUseOnly: Option<bool>,
    aiGenerated: Option<bool>,
    revokedAt: Option<string>,
    mediaId: Option<string>,
    sourceId: Option<string>,
    languageId: Option<string>,
    educationalMethodologyId: Option<string>,
    educationalFrameworkId: Option<string>,
    educationalToolId: Option<string>,
    businessUnitIds: Option<seq<string>>,
    courseIds: Option<seq<string>>,
    regionIds: Option<seq<string>>,
    jobTitleSkills: Option<seq<StoredRelevance>>)

  /** The form's `formData` record. */
  datatype EditFormData = EditFormData(
    title: string,
    description: string,
    duration: int,
    internalUseOnly: bool,
    aiGenerated: bool,
    revokedAt: string,
    mediaId: string,
    sourceId: string,
    languageId: string,
    educationalMethodologyId: string,
    educationalFrameworkId: string,
    educationalToolId: string,
    businessUnits: seq<string>,
    courses: seq<string>,
    regions: seq<string>,
    relevance: seq<int>)

  /** The inputs that `handleInputChange` writes as typed text. */
  datatype TextField = Title | Description | RevokedAt | MediaId | SourceId | LanguageId
                     | MethodologyId | FrameworkId | ToolId

  /** The two inputs that `handleCheckboxChange` writes. */
  datatype FlagField = InternalUseOnly | AiGenerated

  // ----- initial state -----

  /** The date part of a stored ISO time stamp: everything before the first `T`. */
  function DatePart(iso: string): (r: string)
    ensures |r| <= |iso| && r == iso[..|r|]
    ensures 'T' !in r
    ensures |r| < |iso| ==> iso[|r|] == 'T'
  {
    if 'T' in iso then iso[..IndexOf(iso, 'T')] else iso
  }

  function StoredFor(stored: seq<StoredRelevance>, skillId: string): Option<StoredRelevance> {
    Find(stored, (a: StoredRelevance) => a.jobTitleSkillId == skillId)
  }

  /** One cell of the initial `relevance` array: the stored relevance of that skill, or 0. */
  function InitialRelevanceOf(article: StoredArticle, skill: JobTitleSkill): int {
    if article.jobTitleSkills.None? then 0
    else
      var found := StoredFor(article.jobTitleSkills.value, skill.id);
      if found.Some? then found.value.relevance else 0
  }

  function InitialRelevanceCell(article: StoredArticle): JobTitleSkill -> int {
    (s: JobTitleSkill) => InitialRelevanceOf(article, s)
  }

  /** The initial `relevance` array: one cell per listed skill, in list order. */
  function InitialRelevance(article: StoredArticle, skills: seq<JobTitleSkill>): (r: seq<int>)
    ensures |r| == |skills|
    ensures forall k :: 0 <= k < |skills| ==>
      (article.jobTitleSkills.None? ==> r[k] == 0) &&
      (article.jobTitleSkills.Some? ==>
        (StoredFor(article.jobTitleSkills.value, skills[k].id).None? ==> r[k] == 0) &&
        (StoredFor(article.jobTitleSkills.value, skills[k].id).Some? ==>
           r[k] == StoredFor(article.jobTitleSkills.value, skills[k].id).value.relevance))
  {
    Map(skills, InitialRelevanceCell(article))
  }

  /** The initial `formData`: stored values with `||` fallbacks. */
  function InitialFormData(article: StoredArticle, skills: seq<JobTitleSkill>): (f: EditFormData)
    ensures TruthyText(article.title) ==> f.title == article.title.value
    ensures !TruthyText(article.title) ==> f.title == ""
    ensures f.duration == NumberOr(article.duration, 0)
    ensures f.internalUseOnly <==> article.internalUseOnly == Some(true)
    ensures f.aiGenerated <==> article.aiGenerated == Some(true)
    ensures !TruthyText(article.revokedAt) ==> f.revokedAt == ""
    ensures 'T' !in f.revokedAt
    ensures f.businessUnits == article.businessUnitIds.GetOr([])
    ensures f.courses == article.courseIds.GetOr([])
    ensures f.regions == article.regionIds.GetOr([])
    ensures f.relevance == InitialRelevance(article, skills)
  {
    EditFormData(
      TextOr(article.title, ""),
      TextOr(article.description, ""),
      NumberOr(article.duration, 0),
      article.internalUseOnly.GetOr(false),
      article.aiGenerated.GetOr(false),
      if TruthyText(article.revokedAt) then DatePart(article.revokedAt.value) else "",
      TextOr(article.mediaId, ""),
      TextOr(article.sourceId, ""),
      TextOr(article.languageId, ""),
      TextOr(article.educationalMethodologyId, ""),
      TextOr(article.educationalFrameworkId, ""),
      TextOr(article.educationalToolId, ""),
      article.businessUnitIds.GetOr([]),
      article.courseIds.GetOr([]),
      article.regionIds.GetOr([]),
      InitialRelevance(article, skills))
  }

  function SkillIds(skills: seq<JobTitleSkill>): set<string> {
    set k | 0 <= k < |skills| :: skills[k].id
  }

  /** `existingRelevance || 1` for one skill id. */
  function InitialValueOf(article: StoredArticle, skillId: string): int {
    var stored := if article.jobTitleSkills.Some? then StoredFor(article.jobTitleSkills.value, skillId) else None;
    if stored.Some? && stored.value.relevance != 0 then stored.value.relevance else 1
  }

  /** The initial `relevanceValues` record: a non-zero value for every listed skill id. */
  function InitialRelevanceValues(article: StoredArticle, skills: seq<JobTitleSkill>): (r: map<string, int>)
    ensures r.Keys == SkillIds(skills)
    ensures forall id :: id in r ==> r[id] != 0
    ensures forall k :: 0 <= k < |skills| && InitialRelevanceOf(article, skills[k]) != 0 ==>
      r[skills[k].id] == InitialRelevanceOf(article, skills[k])
  {
    map id | id in SkillIds(skills) :: InitialValueOf(article, id)
  }

  // ----- the job-title-skills payload -----

  /** `relevanceValues[id] || 1`: a missing or zero value counts as 1. */
  function ValueOr1(values: map<string, int>, id: string): (v: int)
    ensures v != 0
    ensures id in values && values[id] != 0 ==> v == values[id]
  {
    if id in values && values[id] != 0 then values[id] else 1
  }

  datatype SkillRelevance = SkillRelevance(jobTitleSkillId: string, relevance: int)

  function PayloadEntry(values: map<string, int>): JobTitleSkill -> SkillRelevance {
    (s: JobTitleSkill) => SkillRelevance(s.id, ValueOr1(values, s.id))
  }

  /** The body of the job-title-skills sync: one entry per listed skill, never with relevance 0. */
  function JobTitleSkillsPayload(skills: seq<JobTitleSkill>, values: map<string, int>): (r: seq<SkillRelevance>)
    ensures |r| == |skills|
    ensures forall k :: 0 <= k < |skills| ==>
      r[k].jobTitleSkillId == skills[k].id && r[k].relevance != 0 &&
      (skills[k].id in values && values[skills[k].id] != 0 ==> r[k].relevance == values[skills[k].id])
  {
    Map(skills, PayloadEntry(values))
  }

  function RelevanceCell(values: map<string, int>): JobTitleSkill -> int {
    (s: JobTitleSkill) => ValueOr1(values, s.id)
  }

  /** The `relevance` array a select rebuilds from a values record. */
  function RelevanceRow(skills: seq<JobTitleSkill>, values: map<string, int>): (r: seq<int>)
    ensures |r| == |skills|
    ensures forall k :: 0 <= k < |skills| ==> r[k] == JobTitleSkillsPayload(skills, values)[k].relevance
  {
    Map(skills, RelevanceCell(values))
  }

  /**
   * A select change rebuilds `relevance` from the values before the change:
   * the cell of the changed skill disagrees with the value just chosen
   * whenever that value differs from its predecessor.
   */
  lemma SelectLagsOneBehind(skills: seq<JobTitleSkill>, values: map<string, int>, k: nat, newValue: int)
    requires k < |skills| && newValue != 0
    requires ValueOr1(values, skills[k].id) != newValue
    ensures RelevanceRow(skills, values)[k] != RelevanceRow(skills, values[skills[k].id := newValue])[k]
    ensures RelevanceRow(skills, values[skills[k].id := newValue])[k] == newValue
  {
  }

  // ----- field handlers -----

  function TextOf(f: EditFormData, field: TextField): string {
    match field
    case Title => f.title
    case Description => f.description
    case RevokedAt => f.revokedAt
    case MediaId => f.mediaId
    case SourceId => f.sourceId
    case LanguageId => f.languageId
    case MethodologyId => f.educationalMethodologyId
    case FrameworkId => f.educationalFrameworkId
    case ToolId => f.educationalToolId
  }

  /** `[name]: value` for a text input. */
  function WithText(f: EditFormData, field: TextField, value: string): (r: EditFormData)
    ensures TextOf(r, field) == value
    ensures forall other :: other != field ==> TextOf(r, other) == TextOf(f, other)
    ensures r.duration == f.duration && r.internalUseOnly == f.internalUseOnly && r.aiGenerated == f.aiGenerated
    ensures r.businessUnits == f.businessUnits && r.courses == f.courses && r.regions == f.regions
    ensures r.relevance == f.relevance
  {
    match field
    case Title => f.(title := value)
    case Description => f.(description := value)
    case RevokedAt => f.(revokedAt := value)
    case MediaId => f.(mediaId := value)
    case SourceId => f.(sourceId := value)
    case LanguageId => f.(languageId := value)
    case MethodologyId => f.(educationalMethodologyId := value)
    case FrameworkId => f.(educationalFrameworkId := value)
    case ToolId => f.(educationalToolId := value)
  }

  function ListOf(f: EditFormData, field: ListField): seq<string> {
    match field
    case BusinessUnits => f.businessUnits
    case Courses => f.courses
    case Regions => f.regions
  }

  /** `handleMultiCheckboxChange`: toggles one list, leaving every other field as it was. */
  function WithToggled(f: EditFormData, field: ListField, value: string, checked: bool): (r: EditFormData)
    ensures ListOf(r, field) == Toggle(ListOf(f, field), value, checked)
    ensures forall other :: other != field ==> ListOf(r, other) == ListOf(f, other)
    ensures r.(businessUnits := f.businessUnits, courses := f.courses, regions := f.regions) == f
  {
    match field
    case BusinessUnits => f.(businessUnits := Toggle(f.businessUnits, value, checked))
    case Courses => f.(courses := Toggle(f.courses, value, checked))
    case Regions => f.(regions := Toggle(f.regions, value, checked))
  }

  /**
   * Checking adds one more occurrence, even of an id already present;
   * unchecking removes every occurrence and keeps every other id's count.
   */
  lemma ToggleCounts(current: seq<string>, value: string, checked: bool, x: string)
    ensures checked ==> multiset(Toggle(current, value, checked)) == multiset(current) + multiset{value}
    ensures !checked ==> multiset(Toggle(current, value, checked))[value] == 0
    ensures !checked && x != value ==> multiset(Toggle(current, value, checked))[x] == multiset(current)[x]
  {
    if !checked {
      var p := (v: string) => v != value;
      var kept := Filter(current, p);
      var dropped := Filter(current, Not(p));
      FilterSplitsMultiset(current, p);
      assert value !in kept;
      if x != value {
        assert x !in dropped;
      }
    }
  }

  // ----- submit -----

  /** What the article PUT carries: the form without its lists and without `relevance`. */
  datatype ArticleBody = ArticleBody(
    title: string, description: string, duration: int, internalUseOnly: bool, aiGenerated: bool,
    revokedAt: string, mediaId: string, sourceId: string, languageId: string,
    educationalMethodologyId: string, educationalFrameworkId: string, educationalToolId: string)

  function ArticleBodyOf(f: EditFormData): ArticleBody {
    ArticleBody(f.title, f.description, f.duration, f.internalUseOnly, f.aiGenerated, f.revokedAt,
      f.mediaId, f.sourceId, f.languageId, f.educationalMethodologyId, f.educationalFrameworkId, f.educationalToolId)
  }

  /** The lists and the relevance array never reach the article PUT. */
  lemma ArticleBodyIgnoresLists(f: EditFormData, bu: seq<string>, co: seq<string>, re: seq<string>, rel: seq<int>)
    ensures ArticleBodyOf(f.(businessUnits := bu, courses := co, regions := re, relevance := rel)) == ArticleBodyOf(f)
    ensures forall t :: (TextOf(f, t) in
      {ArticleBodyOf(f).title, ArticleBodyOf(f).description, ArticleBodyOf(f).revokedAt,
       ArticleBodyOf(f).mediaId, ArticleBodyOf(f).sourceId, ArticleBodyOf(f).languageId,
       ArticleBodyOf(f).educationalMethodologyId, ArticleBodyOf(f).educationalFrameworkId,
       ArticleBodyOf(f).educationalToolId})
  {
  }

  datatype PutBody =
    | ArticlePut(article: ArticleBody)
    | BusinessUnitsPut(businessUnits: seq<string>)
    | CoursesPut(courses: seq<string>)
    | RegionsPut(regions: seq<string>)
    | JobTitleSkillsPut(jobTitleSkills: seq<SkillRelevance>)

  datatype PutRequest = PutRequest(path: string, body: PutBody)

  /** What one `fetch` came to: a response with its `ok` flag, or an exception with its message. */
  datatype PutOutcome = Response(ok: bool) | Threw(message: string)

  function ArticlePath(id: string): string {
    "/articles/" + id
  }

  /** The five requests, in the order they are issued. */
  function Requests(id: string, f: EditFormData, skills: seq<JobTitleSkill>, values: map<string, int>): (r: seq<PutRequest>)
    ensures |r| == 5
    ensures r[0] == PutRequest(ArticlePath(id), ArticlePut(ArticleBodyOf(f)))
    ensures r[4].body == JobTitleSkillsPut(JobTitleSkillsPayload(skills, values))
  {
    [PutRequest(ArticlePath(id), ArticlePut(ArticleBodyOf(f))),
     PutRequest(ArticlePath(id) + "/sync/business-units", BusinessUnitsPut(f.businessUnits)),
     PutRequest(ArticlePath(id) + "/sync/courses", CoursesPut(f.courses)),
     PutRequest(ArticlePath(id) + "/sync/regions", RegionsPut(f.regions)),
     PutRequest(ArticlePath(id) + "/sync/job-title-skills", JobTitleSkillsPut(JobTitleSkillsPayload(skills, values)))]
  }

  /** The message thrown when request `k` answers with a non-OK status. */
  function StepError(k: nat): string
    requires k < 5
  {
    ["Failed to update article", "Failed to sync business units", "Failed to sync courses",
     "Failed to sync regions", "Failed to sync job title skills"][k]
  }

  const SuccessStatus: string := "Article updated successfully!"
  const FailureStatus: string := "Failed to update article"

  /** The error a failed step leaves on the form. */
  function ErrorOf(k: nat, o: PutOutcome): string
    requires k < 5
  {
    if o.Threw? then o.message else StepError(k)
  }

  predicate Succeeded(o: PutOutcome) {
    o.Response? && o.ok
  }

  /** The end of a submit: what was sent, the error shown, what `onSubmit` received, the status and where the router goes. */
  datatype SubmitResult = SubmitResult(
    issued: seq<PutRequest>, error: Option<string>, submitted: Option<ArticleBody>, status: string, redirect: string)

  /**
   * `handleSubmit` given the outcome of each request: the requests go out in
   * order until one fails; `onSubmit` runs only when all succeed; the router
   * moves to the article page in every case.
   */
  function Submit(id: string, f: EditFormData, skills: seq<JobTitleSkill>, values: map<string, int>,
                  outcomes: seq<PutOutcome>): (r: SubmitResult)
    requires |outcomes| == 5
    ensures 1 <= |r.issued| <= 5 && r.issued == Requests(id, f, skills, values)[..|r.issued|]
    ensures forall k :: 0 <= k < |r.issued| - 1 ==> Succeeded(outcomes[k])
    ensures r.error.None? <==> forall k :: 0 <= k < 5 ==> Succeeded(outcomes[k])
    ensures r.error.Some? ==> (!Succeeded(outcomes[|r.issued| - 1]) &&
      r.error.value == ErrorOf(|r.issued| - 1, outcomes[|r.issued| - 1]) && r.status == FailureStatus)
    ensures r.error.None? ==> |r.issued| == 5 && r.status == SuccessStatus
    ensures r.submitted.Some? <==> r.error.None?
    ensures r.submitted.Some? ==> r.submitted.value == ArticleBodyOf(f)
    ensures r.redirect == ArticlePath(id)
  {
    var reqs := Requests(id, f, skills, values);
    var k := FindIndex(outcomes, Not(Succeeded));
    if k == -1 then
      assert reqs[..5] == reqs;
      SubmitResult(reqs, None, Some(ArticleBodyOf(f)), SuccessStatus, ArticlePath(id))
    else
      assert !Succeeded(outcomes[k]);
      SubmitResult(reqs[..k + 1], Some(ErrorOf(k, outcomes[k])), None, FailureStatus, ArticlePath(id))
  }

  /** A failure at request `k` stops the run there: exactly `k + 1` requests go out and nothing is submitted. */
  lemma SubmitStopsAtFirstFailure(id: string, f: EditFormData, skills: seq<JobTitleSkill>, values: map<string, int>,
                                  outcomes: seq<PutOutcome>, k: nat)
    requires |outcomes| == 5 && k < 5
    requires forall j :: 0 <= j < k ==> Succeeded(outcomes[j])
    requires !Succeeded(outcomes[k])
    ensures |Submit(id, f, skills, values, outcomes).issued| == k + 1
    ensures Submit(id, f, skills, values, outcomes).submitted.None?
    ensures Submit(id, f, skills, values, outcomes).error == Some(ErrorOf(k, outcomes[k]))
  {
    assert FindIndex(outcomes, Not(Succeeded)) == k;
  }

  /** The form's state. */
  class EditArticle {
    const article: StoredArticle
    const skills: seq<JobTitleSkill>
    var formData: EditFormData
    var relevanceValues: map<string, int>
    var error: Option<string>
    var status: Option<string>
    var isSubmitting: bool

    constructor (article: StoredArticle, skills: seq<JobTitleSkill>)
      ensures this.article == article && this.skills == skills
      ensures formData == InitialFormData(article, skills)
      ensures relevanceValues == InitialRelevanceValues(article, skills)
      ensures error.None? && status.None? && !isSubmitting
    {
      this.article := article;
      this.skills := skills;
      formData := InitialFormData(article, skills);
      relevanceValues := InitialRelevanceValues(article, skills);
      error := None;
      status := None;
      isSubmitting := false;
    }

    /** `handleInputChange` on a text input. */
    method HandleTextChange(field: TextField, value: string)
      modifies this
      ensures formData == WithText(old(formData), field, value)
      ensures relevanceValues == old(relevanceValues)
    {
      formData := WithText(formData, field, value);
    }

    /** `handleInputChange` on the number input: `parseInt(value) || 0`. */
    method HandleDurationChange(value: string)
      modifies this
      ensures formData == old(formData).(duration := ParseIntOrZero(value))
      ensures relevanceValues == old(relevanceValues)
    {
      var d := ParseIntOrZero(value);
      formData := formData.(duration := d);
    }

    /** `handleCheckboxChange`. */
    method HandleCheckboxChange(field: FlagField, checked: bool)
      modifies this
      ensures formData == if field == InternalUseOnly then old(formData).(internalUseOnly := checked)
                          else old(formData).(aiGenerated := checked)
      ensures relevanceValues == old(relevanceValues)
    {
      if field == InternalUseOnly {
        formData := formData.(internalUseOnly := checked);
      } else {
        formData := formData.(aiGenerated := checked);
      }
    }

    /** `handleMultiCheckboxChange`. */
    method HandleMultiCheckboxChange(field: ListField, value: string, checked: bool)
      modifies this
      ensures formData == WithToggled(old(formData), field, value, checked)
      ensures relevanceValues == old(relevanceValues)
    {
      formData := WithToggled(formData, field, value, checked);
    }

    /** A relevance select: stores the new value, and rebuilds `relevance` from the values as they were before. */
    method HandleRelevanceSelect(skillId: string, newValue: int)
      modifies this
      ensures relevanceValues == old(relevanceValues)[skillId := newValue]
      ensures formData == old(formData).(relevance := RelevanceRow(skills, old(relevanceValues)))
    {
      var before := relevanceValues;
      relevanceValues := relevanceValues[skillId := newValue];
      formData := formData.(relevance := RelevanceRow(skills, before));
    }

    /** `handleSubmit` given each request's outcome; `isSubmitting` ends false whatever happens. */
    method HandleSubmit(outcomes: seq<PutOutcome>) returns (r: SubmitResult)
      requires |outcomes| == 5
      modifies this
      ensures r == Submit(article.id, old(formData), skills, old(relevanceValues), outcomes)
      ensures error == r.error && status == Some(r.status) && !isSubmitting
      ensures formData == old(formData) && relevanceValues == old(relevanceValues)
    {
      isSubmitting := true;
      error := None;
      r := Submit(article.id, formData, skills, relevanceValues, outcomes);
      error := r.error;
      status := Some(r.status);
      isSubmitting := false;
    }
  }
}
