/**
 * The New Article wizard: five steps (upload, metadata, competency relevance,
 * complexity, review) over a set of uploaded PDFs, some of which are grouped.
 * Every file name and group id keys an entry in four lists, the submission
 * emits one record per physical file, and the processing hook tracks each
 * upload's analysis.
 */
module NewArticlePage {
  import opened Wrappers
  import opened Strings
  import opened Seqs
  import opened Registry
  import opened ArticleModels
  import opened FileUploadPoll
  import ValidationStatusIcon

  const Steps: seq<string> :=
    ["Upload Files", "Article Metadata", "Competency Relevance", "Complexity Level", "Review & Submit"]

  /** `steps.length - 1` */
  const LastStep: nat := 4

  datatype ValidityEntry = ValidityEntry(id: string, isValid: Option<bool>)
  datatype RelevanceEntry = RelevanceEntry(id: string, relevance: seq<int>, isTouched: bool)
  datatype ComplexityEntry = ComplexityEntry(id: string, complexity: seq<int>)

  function MetadataId(m: ArticleMetadata): string { m.id }
  function ValidityId(e: ValidityEntry): string { e.id }
  function RelevanceId(e: RelevanceEntry): string { e.id }
  function ComplexityId(e: ComplexityEntry): string { e.id }
  function GroupKey(g: FileGroup): string { g.id }
  function FileName(f: FileWithUuid): string { f.name }

  /** The page's state, apart from the lookup lists and the loading and submitting flags. */
  datatype Session = Session(
    currentStep: nat,
    files: seq<FileWithUuid>,
    fileGroups: seq<FileGroup>,
    selectedFileName: string,
    formData: seq<ArticleMetadata>,
    validity: seq<ValidityEntry>,
    relevance: seq<RelevanceEntry>,
    complexity: seq<ComplexityEntry>)

  const InitialSession: Session := Session(0, [], [], "", [], [], [], [])

  // ----- navigation -----

  /** `handleNext`: moving from step 0 with nothing selected selects the first file. */
  function Next(s: Session): Session {
    if s.currentStep < |Steps| - 1 then
      s.(currentStep := s.currentStep + 1,
         selectedFileName :=
           if s.currentStep == 0 && |s.files| > 0 && s.selectedFileName == "" then s.files[0].name
           else s.selectedFileName)
    else s
  }

  /** `handlePrevious` */
  function Previous(s: Session): Session {
    if s.currentStep > 0 then s.(currentStep := s.currentStep - 1) else s
  }

  /** The step stays within the five steps; Next adds one below the last, Previous takes one above the first. */
  lemma NavigationBounds(s: Session)
    requires s.currentStep <= LastStep
    ensures Next(s).currentStep <= LastStep && Previous(s).currentStep <= LastStep
    ensures Next(s).currentStep == if s.currentStep < LastStep then s.currentStep + 1 else s.currentStep
    ensures Previous(s).currentStep == if s.currentStep > 0 then s.currentStep - 1 else 0
    ensures s.currentStep < LastStep ==> Previous(Next(s)).currentStep == s.currentStep
    ensures Next(s).files == s.files && Previous(s).files == s.files
  {
  }

  /**
   * The auto-select effect: once past step 0 with nothing selected, the first
   * group is selected, or else the first ungrouped file.
   */
  function AutoSelect(s: Session): Session {
    if s.currentStep > 0 && |s.fileGroups| > 0 && s.selectedFileName == "" then
      s.(selectedFileName := s.fileGroups[0].id)
    else if s.currentStep > 0 && |s.files| > 0 && s.selectedFileName == "" then
      s.(selectedFileName := s.files[0].name)
    else s
  }

  /** The effect only fills an empty selection, and prefers groups. */
  lemma AutoSelectChoice(s: Session)
    ensures AutoSelect(s).selectedFileName != s.selectedFileName ==> s.selectedFileName == "" && s.currentStep > 0
    ensures s.currentStep > 0 && s.selectedFileName == "" && |s.fileGroups| > 0 ==>
      AutoSelect(s).selectedFileName == s.fileGroups[0].id
    ensures s.currentStep > 0 && s.selectedFileName == "" && |s.fileGroups| == 0 && |s.files| > 0 ==>
      AutoSelect(s).selectedFileName == s.files[0].name
    ensures AutoSelect(s) == s.(selectedFileName := AutoSelect(s).selectedFileName)
  {
  }

  // ----- uploads -----

  function HasName(name: string): FileWithUuid -> bool {
    (f: FileWithUuid) => f.name == name
  }

  /** `!files.find(f => f.name === newFile.name)` */
  function IsNewName(files: seq<FileWithUuid>): FileWithUuid -> bool {
    (f: FileWithUuid) => Find(files, HasName(f.name)).None?
  }

  function UniqueNewFiles(files: seq<FileWithUuid>, newFiles: seq<FileWithUuid>): (r: seq<FileWithUuid>)
    ensures forall i :: 0 <= i < |r| ==> r[i] in newFiles
    ensures forall i, j :: 0 <= i < |r| && 0 <= j < |files| ==> r[i].name != files[j].name
  {
    var r := Filter(newFiles, IsNewName(files));
    assert forall i :: 0 <= i < |r| ==> IsNewName(files)(r[i]);
    r
  }

  /** `handleFileUploaded`, as intended: only the files whose name is new are added. */
  function WithUploads(s: Session, newFiles: seq<FileWithUuid>): Session {
    var added := UniqueNewFiles(s.files, newFiles);
    if added == [] then s else s.(files := s.files + added)
  }

  /** `handleFileUploaded` as written: once one name is new, the whole batch is added. */
  function WithUploadsAsWritten(s: Session, newFiles: seq<FileWithUuid>): Session {
    var added := UniqueNewFiles(s.files, newFiles);
    if added == [] then s else s.(files := s.files + newFiles)
  }

  /** With unique names in the batch, the intended upload keeps ungrouped names unique. */
  lemma UploadsKeepNamesDistinct(s: Session, newFiles: seq<FileWithUuid>)
    requires NamesDistinct(s.files) && NamesDistinct(newFiles)
    ensures NamesDistinct(WithUploads(s, newFiles).files)
    ensures UniqueNewFiles(s.files, newFiles) == [] ==> WithUploads(s, newFiles) == s
  {
    var added := UniqueNewFiles(s.files, newFiles);
    FilterNamesDistinct(newFiles, IsNewName(s.files));
    var r := s.files + added;
    forall i, j | 0 <= i < j < |r| ensures r[i].name != r[j].name {
      if j < |s.files| {
        assert r[i] == s.files[i] && r[j] == s.files[j];
      } else if i >= |s.files| {
        assert r[i] == added[i - |s.files|] && r[j] == added[j - |s.files|];
      } else {
        assert r[j] == added[j - |s.files|];
      }
    }
  }

  /**
   * As written, re-uploading a file next to a new one adds the old name a
   * second time; the intended version adds only the new file.
   */
  lemma DuplicateUploadAsWritten(a: FileWithUuid, b: FileWithUuid, c: FileWithUuid)
    requires a.name == "report.pdf" && b.name == "report.pdf" && c.name == "notes.pdf"
    ensures var s := InitialSession.(files := [a]);
      WithUploadsAsWritten(s, [b, c]).files == [a, b, c] && !NamesDistinct([a, b, c])
      && WithUploads(s, [b, c]).files == [a, c] && NamesDistinct([a, c])
  {
    var s := InitialSession.(files := [a]);
    assert !IsNewName([a])(b) by {
      assert HasName(b.name)(a);
    }
    assert IsNewName([a])(c) by {
      assert !HasName(c.name)(a);
    }
    assert [b, c][1..] == [c];
    assert [c][1..] == [];
    assert UniqueNewFiles([a], [b, c]) == [c];
    assert WithUploads(s, [b, c]).files == [a, c];
    assert WithUploadsAsWritten(s, [b, c]).files == [a, b, c];
    assert !NamesDistinct([a, b, c]) by {
      assert [a, b, c][0].name == [a, b, c][1].name;
    }
    assert NamesDistinct([a, c]);
  }

  /** One tracked upload: only a file with an identifier starts a poll loop. */
  function TrackUpload(t: TrackerState, f: FileWithUuid): TrackerState {
    if f.uuid.Some? then TrackFile(t, f.uuid.value) else t
  }

  /** The uploads tracked in order. */
  function TrackUploads(t: TrackerState, uploads: seq<FileWithUuid>): (r: TrackerState)
    ensures TrackerValid(t) ==> TrackerValid(r)
    ensures t.statuses.Keys <= r.statuses.Keys
    decreases |uploads|
  {
    if uploads == [] then t
    else TrackUpload(TrackUploads(t, uploads[..|uploads| - 1]), Last(uploads))
  }

  /** Every new file with an identifier gets a "processing" entry; other entries are untouched. */
  lemma {:induction false} TrackUploadsEntries(t: TrackerState, uploads: seq<FileWithUuid>, uuid: string)
    ensures (exists i :: 0 <= i < |uploads| && uploads[i].uuid == Some(uuid)) ==>
      uuid in TrackUploads(t, uploads).statuses &&
      TrackUploads(t, uploads).statuses[uuid] == FileStatus(Processing, None, None)
    ensures (forall i :: 0 <= i < |uploads| ==> uploads[i].uuid != Some(uuid)) ==>
      (uuid in TrackUploads(t, uploads).statuses <==> uuid in t.statuses) &&
      (uuid in t.statuses ==> TrackUploads(t, uploads).statuses[uuid] == t.statuses[uuid])
    decreases |uploads|
  {
    if uploads != [] {
      var init := uploads[..|uploads| - 1];
      TrackUploadsEntries(t, init, uuid);
      if exists i :: 0 <= i < |uploads| && uploads[i].uuid == Some(uuid) {
        var i :| 0 <= i < |uploads| && uploads[i].uuid == Some(uuid);
        if i < |init| {
          assert init[i] == uploads[i];
        }
      }
      if forall i :: 0 <= i < |uploads| ==> uploads[i].uuid != Some(uuid) {
        assert forall i :: 0 <= i < |init| ==> init[i] == uploads[i];
      }
    }
  }

  // ----- removal -----

  function IsNot(f: FileWithUuid): FileWithUuid -> bool {
    x => x != f
  }

  /**
   * `removeFile`: drops the handle (by identity) and its metadata entry; a
   * selection of it moves to the first remaining ungrouped file, or to nothing.
   */
  function WithFileRemoved(s: Session, f: FileWithUuid): Session {
    var remaining := Filter(s.files, IsNot(f));
    s.(files := remaining,
       selectedFileName :=
         if s.selectedFileName == f.name then (if |remaining| > 0 then remaining[0].name else "")
         else s.selectedFileName,
       formData := Filter(s.formData, Not(KeyIs(MetadataId, f.name))))
  }

  /** Only the metadata entry goes; validity, relevance and complexity entries stay behind. */
  lemma RemoveFileEffects(s: Session, f: FileWithUuid, id: string)
    ensures var r := WithFileRemoved(s, f);
      f !in r.files && (forall x :: x in r.files <==> x in s.files && x != f) &&
      Lookup(r.formData, MetadataId, f.name).None? &&
      (id != f.name ==> Lookup(r.formData, MetadataId, id) == Lookup(s.formData, MetadataId, id)) &&
      r.validity == s.validity && r.relevance == s.relevance && r.complexity == s.complexity &&
      r.fileGroups == s.fileGroups && r.currentStep == s.currentStep
  {
    RemoveKeyLookup(s.formData, MetadataId, f.name, id);
  }

  /**
   * The stale validity entry of a removed file keeps the metadata step closed,
   * even though the remaining file's form is valid.
   */
  lemma RemovedFileBlocksMetadataStep(a: FileWithUuid, b: FileWithUuid)
    requires a != b && a.name != b.name
    ensures var s := InitialSession.(currentStep := 1, files := [a, b],
                                     validity := [ValidityEntry(a.name, Some(true)), ValidityEntry(b.name, Some(true))]);
      !NextDisabled(s, false, false) && NextDisabled(WithFileRemoved(s, a), false, false)
  {
    var s := InitialSession.(currentStep := 1, files := [a, b],
                             validity := [ValidityEntry(a.name, Some(true)), ValidityEntry(b.name, Some(true))]);
    assert !Any(s.validity, NotValid);
    assert Filter([a, b], IsNot(a)) == [b] by {
      assert [a, b][1..] == [b];
      assert [b][1..] == [];
    }
  }

  // ----- grouping -----

  /** `group-${Date.now()}`; the clock is an input. */
  function GroupId(now: nat): string {
    "group-" + NatToString(now)
  }

  function NotIn(sel: seq<FileWithUuid>): FileWithUuid -> bool {
    x => x !in sel
  }

  /** `handleGroupFiles`: fewer than two files change nothing. */
  function WithFilesGrouped(s: Session, sel: seq<FileWithUuid>, groupId: string): Session {
    if |sel| < 2 then s
    else
      s.(fileGroups := s.fileGroups + [FileGroup(groupId, sel)],
         files := Filter(s.files, NotIn(sel)),
         selectedFileName := if Any(sel, HasName(s.selectedFileName)) then groupId else s.selectedFileName)
  }

  /** The Ungroup button: the members go back to the end of `files` and the group is dropped. */
  function WithGroupDissolved(s: Session, g: FileGroup): Session {
    s.(files := s.files + g.files,
       fileGroups := Filter(s.fileGroups, Not(KeyIs(GroupKey, g.id))))
  }

  /** The files held by groups, group by group. */
  function GroupedFiles(gs: seq<FileGroup>): seq<FileWithUuid>
    decreases |gs|
  {
    if gs == [] then [] else GroupedFiles(gs[..|gs| - 1]) + Last(gs).files
  }

  lemma {:induction false} GroupedFilesAppend(a: seq<FileGroup>, b: seq<FileGroup>)
    ensures GroupedFiles(a + b) == GroupedFiles(a) + GroupedFiles(b)
    decreases |b|
  {
    if b == [] {
      assert a + b == a;
    } else {
      var b0 := b[..|b| - 1];
      assert (a + b)[..|a + b| - 1] == a + b0;
      GroupedFilesAppend(a, b0);
    }
  }

  /** Every uploaded file, ungrouped first. */
  function AllFiles(s: Session): seq<FileWithUuid> {
    s.files + GroupedFiles(s.fileGroups)
  }

  /** Every handle in the list occurs exactly once. */
  predicate Once(xs: seq<FileWithUuid>) {
    forall i :: 0 <= i < |xs| ==> multiset(xs)[xs[i]] == 1
  }

  /** A sub-multiset of a list without repeats has none either. */
  lemma OnceShrinks(a: seq<FileWithUuid>, b: seq<FileWithUuid>)
    requires Once(a) && multiset(b) <= multiset(a)
    ensures Once(b)
  {
    forall i | 0 <= i < |b| ensures multiset(b)[b[i]] == 1 {
      assert b[i] in multiset(b);
      assert b[i] in multiset(a);
      var j :| 0 <= j < |a| && a[j] == b[i];
    }
  }

  /**
   * The partition of uploads: no file is ungrouped and grouped, or in two
   * groups, or twice anywhere; group ids are unique; a group has two or more files.
   */
  predicate PartitionValid(s: Session) {
    Once(AllFiles(s)) &&
    UniqueKeys(s.fileGroups, GroupKey) &&
    (forall i :: 0 <= i < |s.fileGroups| ==> |s.fileGroups[i].files| >= 2)
  }

  /**
   * Grouping the files the dialog collected (the ungrouped files passing its
   * filter) neither loses nor duplicates a file.
   */
  lemma GroupingKeepsFiles(s: Session, keep: FileWithUuid -> bool, groupId: string)
    requires |Filter(s.files, keep)| >= 2
    ensures var sel := Filter(s.files, keep);
      multiset(AllFiles(WithFilesGrouped(s, sel, groupId))) == multiset(AllFiles(s))
  {
    var sel := Filter(s.files, keep);
    forall i | 0 <= i < |s.files| ensures NotIn(sel)(s.files[i]) == Not(keep)(s.files[i]) {
      if s.files[i] in sel {
        var j :| 0 <= j < |sel| && sel[j] == s.files[i];
      }
    }
    FilterCongruent(s.files, NotIn(sel), Not(keep));
    FilterSplitsMultiset(s.files, keep);
    var g := FileGroup(groupId, sel);
    assert (s.fileGroups + [g])[..|s.fileGroups|] == s.fileGroups;
  }

  lemma GroupingKeepsPartition(s: Session, keep: FileWithUuid -> bool, groupId: string)
    requires PartitionValid(s) && groupId !in Keys(s.fileGroups, GroupKey)
    requires |Filter(s.files, keep)| >= 2
    ensures PartitionValid(WithFilesGrouped(s, Filter(s.files, keep), groupId))
  {
    GroupingKeepsFiles(s, keep, groupId);
    OnceShrinks(AllFiles(s), AllFiles(WithFilesGrouped(s, Filter(s.files, keep), groupId)));
    AppendFreshKey(s.fileGroups, GroupKey, FileGroup(groupId, Filter(s.files, keep)));
  }

  /** Splitting the groups around the dissolved one, which is the only one with its id. */
  /** Ungrouping neither loses nor duplicates a file. */
  lemma UngroupKeepsFiles(s: Session, k: nat)
    requires k < |s.fileGroups| && UniqueKeys(s.fileGroups, GroupKey)
    ensures multiset(AllFiles(WithGroupDissolved(s, s.fileGroups[k]))) == multiset(AllFiles(s))
  {
    var gs := s.fileGroups;
    FilterRemovesUniqueKey(gs, GroupKey, k);
    assert gs == gs[..k] + [gs[k]] + gs[k + 1..];
    GroupedFilesAppend(gs[..k] + [gs[k]], gs[k + 1..]);
    GroupedFilesAppend(gs[..k], [gs[k]]);
    GroupedFilesAppend(gs[..k], gs[k + 1..]);
    assert GroupedFiles([gs[k]]) == gs[k].files by {
      assert [gs[k]][..0] == [];
    }
  }

  lemma UngroupKeepsPartition(s: Session, k: nat)
    requires PartitionValid(s) && k < |s.fileGroups|
    ensures PartitionValid(WithGroupDissolved(s, s.fileGroups[k]))
  {
    UngroupKeepsFiles(s, k);
    OnceShrinks(AllFiles(s), AllFiles(WithGroupDissolved(s, s.fileGroups[k])));
    FilterKeepsUniqueKeys(s.fileGroups, GroupKey, Not(KeyIs(GroupKey, s.fileGroups[k].id)));
  }

  /** Removing a file only drops it. */
  lemma RemoveKeepsPartition(s: Session, f: FileWithUuid)
    requires PartitionValid(s)
    ensures PartitionValid(WithFileRemoved(s, f))
  {
    FilterSplitsMultiset(s.files, IsNot(f));
    OnceShrinks(AllFiles(s), AllFiles(WithFileRemoved(s, f)));
  }

  /** Fresh upload handles, none already present, keep the partition. */
  lemma UploadKeepsPartition(s: Session, newFiles: seq<FileWithUuid>)
    requires PartitionValid(s) && Distinct(newFiles)
    requires forall i :: 0 <= i < |newFiles| ==> newFiles[i] !in AllFiles(s)
    ensures PartitionValid(WithUploads(s, newFiles))
  {
    var added := UniqueNewFiles(s.files, newFiles);
    FilterDistinct(newFiles, IsNewName(s.files));
    DistinctCounts(added);
    if added != [] {
      var r := WithUploads(s, newFiles);
      var all, now := AllFiles(s), AllFiles(r);
      assert now == s.files + added + GroupedFiles(s.fileGroups);
      assert multiset(now) == multiset(all) + multiset(added);
      forall i | 0 <= i < |now| ensures multiset(now)[now[i]] == 1 {
        var x := now[i];
        assert x in multiset(now);
        if x in all {
          var j :| 0 <= j < |all| && all[j] == x;
          assert multiset(all)[x] == 1;
          assert x !in added;
        } else {
          assert multiset(all)[x] == 0;
        }
      }
    }
  }

  // ----- the four keyed lists -----

  /** `updateMetadata`: the entry is stored under the reported id. */
  function WithMetadata(s: Session, id: string, data: ArticleMetadata): Session {
    s.(formData := Upsert(s.formData, MetadataId, data.(id := id)))
  }

  /** `checkIsMetadataValid` */
  function WithValidity(s: Session, id: string, isValid: Option<bool>): Session {
    s.(validity := Upsert(s.validity, ValidityId, ValidityEntry(id, isValid)))
  }

  /** `selectedSkills.some(skill => skill !== 0)` */
  predicate HasSelectedSkills(v: seq<int>) {
    exists i :: 0 <= i < |v| && v[i] != 0
  }

  predicate Touched(s: Session, id: string) {
    var e := Lookup(s.relevance, RelevanceId, id);
    e.Some? && e.value.isTouched
  }

  /** `onRelevancyChange`: touched once a vector with a selected skill arrives, and from then on. */
  function WithRelevance(s: Session, id: string, v: seq<int>): Session {
    var touched := HasSelectedSkills(v) || Touched(s, id);
    s.(relevance := Upsert(s.relevance, RelevanceId, RelevanceEntry(id, v, touched)))
  }

  /** `onComplexityChange` */
  function WithComplexity(s: Session, id: string, v: seq<int>): Session {
    s.(complexity := Upsert(s.complexity, ComplexityId, ComplexityEntry(id, v)))
  }

  predicate RegistriesValid(s: Session) {
    UniqueKeys(s.formData, MetadataId) && UniqueKeys(s.validity, ValidityId) &&
    UniqueKeys(s.relevance, RelevanceId) && UniqueKeys(s.complexity, ComplexityId)
  }

  /** Every report stores under its id, keeps the other ids' entries, and keeps ids unique. */
  lemma ReportsUpsert(s: Session, id: string, other: string, data: ArticleMetadata, isValid: Option<bool>, v: seq<int>)
    requires RegistriesValid(s) && other != id
    ensures RegistriesValid(WithMetadata(s, id, data)) && RegistriesValid(WithValidity(s, id, isValid))
    ensures RegistriesValid(WithRelevance(s, id, v)) && RegistriesValid(WithComplexity(s, id, v))
    ensures Lookup(WithMetadata(s, id, data).formData, MetadataId, id) == Some(data.(id := id))
    ensures Lookup(WithMetadata(s, id, data).formData, MetadataId, other) == Lookup(s.formData, MetadataId, other)
    ensures Lookup(WithValidity(s, id, isValid).validity, ValidityId, id) == Some(ValidityEntry(id, isValid))
    ensures Lookup(WithValidity(s, id, isValid).validity, ValidityId, other) == Lookup(s.validity, ValidityId, other)
    ensures Lookup(WithComplexity(s, id, v).complexity, ComplexityId, id) == Some(ComplexityEntry(id, v))
    ensures Lookup(WithComplexity(s, id, v).complexity, ComplexityId, other) == Lookup(s.complexity, ComplexityId, other)
  {
    UpsertKeepsKeysUnique(s.formData, MetadataId, data.(id := id));
    UpsertKeepsKeysUnique(s.validity, ValidityId, ValidityEntry(id, isValid));
    UpsertKeepsKeysUnique(s.relevance, RelevanceId, RelevanceEntry(id, v, HasSelectedSkills(v) || Touched(s, id)));
    UpsertKeepsKeysUnique(s.complexity, ComplexityId, ComplexityEntry(id, v));
    UpsertThenLookup(s.formData, MetadataId, data.(id := id));
    UpsertKeepsOthers(s.formData, MetadataId, data.(id := id), other);
    UpsertThenLookup(s.validity, ValidityId, ValidityEntry(id, isValid));
    UpsertKeepsOthers(s.validity, ValidityId, ValidityEntry(id, isValid), other);
    UpsertThenLookup(s.complexity, ComplexityId, ComplexityEntry(id, v));
    UpsertKeepsOthers(s.complexity, ComplexityId, ComplexityEntry(id, v), other);
  }

  /** Removing a file keeps every list's ids unique. */
  lemma RemoveKeepsRegistries(s: Session, f: FileWithUuid)
    requires RegistriesValid(s)
    ensures RegistriesValid(WithFileRemoved(s, f))
  {
    FilterKeepsUniqueKeys(s.formData, MetadataId, Not(KeyIs(MetadataId, f.name)));
  }

  /** `isRelevanceValid`: unknown without an entry or before it is touched; otherwise "some skill selected". */
  function IsRelevanceValid(s: Session, id: string): (r: Option<bool>)
    ensures r.None? <==> !Touched(s, id)
    ensures r.Some? ==> (r.value <==> HasSelectedSkills(Lookup(s.relevance, RelevanceId, id).value.relevance))
  {
    var e := Lookup(s.relevance, RelevanceId, id);
    if e.None? || !e.value.isTouched then None
    else Some(HasSelectedSkills(e.value.relevance))
  }

  /**
   * Touching is permanent: a vector with a selected skill touches its entry,
   * and no later report, for any id, untouches one.
   */
  lemma TouchedIsPermanent(s: Session, id: string, reported: string, v: seq<int>)
    ensures HasSelectedSkills(v) ==> Touched(WithRelevance(s, reported, v), reported)
    ensures Touched(s, id) ==> Touched(WithRelevance(s, reported, v), id)
    ensures Touched(WithRelevance(s, reported, v), reported) <==> HasSelectedSkills(v) || Touched(s, reported)
  {
    var e := RelevanceEntry(reported, v, HasSelectedSkills(v) || Touched(s, reported));
    UpsertThenLookup(s.relevance, RelevanceId, e);
    if id != reported {
      UpsertKeepsOthers(s.relevance, RelevanceId, e, id);
    }
  }

  /** After a report, the entity's relevance validity reflects exactly that report, once touched. */
  lemma RelevanceAfterReport(s: Session, id: string, v: seq<int>)
    ensures IsRelevanceValid(WithRelevance(s, id, v), id) ==
      if HasSelectedSkills(v) || Touched(s, id) then Some(HasSelectedSkills(v)) else None
  {
    var e := RelevanceEntry(id, v, HasSelectedSkills(v) || Touched(s, id));
    UpsertThenLookup(s.relevance, RelevanceId, e);
  }

  /** The ids every entity is keyed by: ungrouped file names, then group ids. */
  function AllIds(s: Session): (ids: seq<string>)
    ensures |ids| == |s.files| + |s.fileGroups|
  {
    Map(s.files, FileName) + Map(s.fileGroups, GroupKey)
  }

  /** `canAdvanceFromRelevancy`: `every` treats an unknown validity as falsy. */
  predicate CanAdvanceFromRelevancy(s: Session) {
    forall i :: 0 <= i < |AllIds(s)| ==> IsRelevanceValid(s, AllIds(s)[i]) == Some(true)
  }

  /** The complexity step reads each entity's relevance entry with `!`; leaving step 2 guarantees one exists. */
  lemma AdvanceMeansRelevanceEntries(s: Session, i: nat)
    requires CanAdvanceFromRelevancy(s) && i < |AllIds(s)|
    ensures Lookup(s.relevance, RelevanceId, AllIds(s)[i]).Some?
    ensures HasSelectedSkills(Lookup(s.relevance, RelevanceId, AllIds(s)[i]).value.relevance)
  {
  }

  /** `!form.isValid`: false and undefined both block. */
  function NotValid(e: ValidityEntry): bool {
    e.isValid != Some(true)
  }

  /** The disabled expression of the Next/Submit button. */
  predicate NextDisabled(s: Session, isSubmitting: bool, isLoading: bool) {
    isSubmitting ||
    (s.currentStep == 0 && |s.files| == 0 && |s.fileGroups| == 0) ||
    (s.currentStep == 1 && (|s.validity| != |s.files| + |s.fileGroups| || Any(s.validity, NotValid))) ||
    (s.currentStep == 2 && !CanAdvanceFromRelevancy(s)) ||
    (isLoading && s.currentStep == 0)
  }

  /** The gate of each step, when nothing is being submitted. */
  lemma NextGates(s: Session, isLoading: bool)
    ensures s.currentStep == 0 ==>
      (!NextDisabled(s, false, isLoading) <==> !isLoading && (|s.files| > 0 || |s.fileGroups| > 0))
    ensures s.currentStep == 1 ==>
      (!NextDisabled(s, false, isLoading) <==>
        |s.validity| == |AllIds(s)| && forall i :: 0 <= i < |s.validity| ==> s.validity[i].isValid == Some(true))
    ensures s.currentStep == 2 ==> (!NextDisabled(s, false, isLoading) <==> CanAdvanceFromRelevancy(s))
    ensures s.currentStep > 2 ==> !NextDisabled(s, false, isLoading)
    ensures NextDisabled(s, true, isLoading)
  {
  }

  /** An untouched entity blocks step 2, and so does one whose report selects nothing. */
  lemma UntouchedBlocksRelevanceStep(s: Session, i: nat)
    requires s.currentStep == 2 && i < |AllIds(s)|
    requires !Touched(s, AllIds(s)[i]) ||
             !HasSelectedSkills(Lookup(s.relevance, RelevanceId, AllIds(s)[i]).value.relevance)
    ensures NextDisabled(s, false, false)
  {
  }

  // ----- card badges -----

  datatype DisplayStatus = Uploading | Reported(status: ProcessingStatus)

  /** `getFileStatus`: no identifier yet is "uploading"; an identifier without an entry counts as processing. */
  function GetFileStatus(f: FileWithUuid, statuses: map<string, FileStatus>): (r: DisplayStatus)
    ensures r == Uploading <==> f.uuid.None?
    ensures f.uuid.Some? && f.uuid.value in statuses ==> r == Reported(statuses[f.uuid.value].status)
    ensures f.uuid.Some? && f.uuid.value !in statuses ==> r == Reported(Processing)
  {
    if f.uuid.None? then Uploading
    else if f.uuid.value in statuses then Reported(statuses[f.uuid.value].status)
    else Reported(Processing)
  }

  /** The validity a card shows: relevance at step 2, metadata validity otherwise. */
  function ShownValidity(s: Session, id: string): Option<bool> {
    if s.currentStep == 2 then IsRelevanceValid(s, id)
    else
      var e := Lookup(s.validity, ValidityId, id);
      if e.Some? then e.value.isValid else None
  }

  datatype CardIndicator = Spinner | StatusBadge(badge: ValidationStatusIcon.Badge)

  /** A processing file shows a spinner instead of its badge; badges appear from step 1. */
  function FileIndicator(s: Session, statuses: map<string, FileStatus>, f: FileWithUuid): (r: CardIndicator)
    ensures r == Spinner <==> GetFileStatus(f, statuses) == Reported(Processing)
    ensures s.currentStep == 0 && r != Spinner ==> r == StatusBadge(ValidationStatusIcon.NoBadge)
  {
    if GetFileStatus(f, statuses) == Reported(Processing) then Spinner
    else StatusBadge(ValidationStatusIcon.StatusIcon(ShownValidity(s, f.name), s.currentStep > 0))
  }

  /** A group shows a spinner while any member with an identifier is processing. */
  function GroupIndicator(s: Session, statuses: map<string, FileStatus>, g: FileGroup): (r: CardIndicator)
    ensures r == Spinner <==>
      exists i :: 0 <= i < |g.files| && g.files[i].uuid.Some? && GetFileStatus(g.files[i], statuses) == Reported(Processing)
  {
    if exists i :: 0 <= i < |g.files| && g.files[i].uuid.Some? && GetFileStatus(g.files[i], statuses) == Reported(Processing)
    then Spinner
    else StatusBadge(ValidationStatusIcon.StatusIcon(ShownValidity(s, g.id), s.currentStep > 0))
  }

  /** A file just tracked shows the spinner until its analysis completes or fails. */
  lemma TrackedFileSpins(s: Session, t: TrackerState, f: FileWithUuid)
    requires f.uuid.Some?
    ensures FileIndicator(s, TrackFile(t, f.uuid.value).statuses, f) == Spinner
  {
  }

  // ----- submission -----

  /** `fileData.coverImage || groupMetadata.coverImage || ''` */
  function MemberCover(fd: FileMetadata, gm: ArticleMetadata): string {
    TextOr(fd.coverImage, TextOr(gm.coverImage, ""))
  }

  /** The record of member `i`: its own title, description and cover, the group's other fields, the member's size and id. */
  function GroupMemberItem(gm: ArticleMetadata, fd: FileMetadata, file: FileWithUuid, cx: ComplexityEntry): SubmissionItem {
    SubmissionItem(Some(fd.title), Some(fd.description), gm.pageCount, Some(MemberCover(fd, gm)), gm.shared,
                   Some(file.size), file.uuid, cx.complexity)
  }

  /** The per-entry loop over the first `n` entries of `fileMetadata`; an entry without a member file is skipped. */
  function GroupMemberItems(gm: ArticleMetadata, fm: seq<FileMetadata>, files: seq<FileWithUuid>,
                            cx: ComplexityEntry, n: nat): (r: seq<SubmissionItem>)
    requires n <= |fm|
    ensures |r| == if n <= |files| then n else |files|
    ensures forall i :: 0 <= i < |r| ==> r[i] == GroupMemberItem(gm, fm[i], files[i], cx)
  {
    if n == 0 then []
    else
      GroupMemberItems(gm, fm, files, cx, n - 1) +
      (if n - 1 < |files| then [GroupMemberItem(gm, fm[n - 1], files[n - 1], cx)] else [])
  }

  /** The fallback for a group record without `fileMetadata`: the group's record once per member. */
  function GroupFallbackItem(gm: ArticleMetadata, cx: ComplexityEntry): SubmissionItem {
    SubmissionItem(gm.title, gm.description, gm.pageCount, gm.coverImage, gm.shared, None, Some(gm.id), cx.complexity)
  }

  /** A group's records: none unless it has both a metadata and a complexity entry. */
  function GroupItems(g: FileGroup, formData: seq<ArticleMetadata>, complexity: seq<ComplexityEntry>): seq<SubmissionItem> {
    var gm := Lookup(formData, MetadataId, g.id);
    var gc := Lookup(complexity, ComplexityId, g.id);
    if gm.None? || gc.None? then []
    else if gm.value.fileMetadata.Some? then
      GroupMemberItems(gm.value, gm.value.fileMetadata.value, g.files, gc.value, |gm.value.fileMetadata.value|)
    else seq(|g.files|, _ => GroupFallbackItem(gm.value, gc.value))
  }

  function GroupsItems(gs: seq<FileGroup>, formData: seq<ArticleMetadata>, complexity: seq<ComplexityEntry>): seq<SubmissionItem>
    decreases |gs|
  {
    if gs == [] then []
    else GroupsItems(gs[..|gs| - 1], formData, complexity) + GroupItems(Last(gs), formData, complexity)
  }

  /** An ungrouped file's record: its metadata with its size, its id and `coverImage || ''`. */
  function FileItem(m: ArticleMetadata, file: FileWithUuid, cx: ComplexityEntry): SubmissionItem {
    SubmissionItem(m.title, m.description, m.pageCount, Some(TextOr(m.coverImage, "")), m.shared,
                   Some(file.size), file.uuid, cx.complexity)
  }

  function FileItems(fs: seq<FileWithUuid>, formData: seq<ArticleMetadata>, complexity: seq<ComplexityEntry>): seq<SubmissionItem>
    decreases |fs|
  {
    if fs == [] then []
    else
      var f := Last(fs);
      var m := Lookup(formData, MetadataId, f.name);
      var c := Lookup(complexity, ComplexityId, f.name);
      FileItems(fs[..|fs| - 1], formData, complexity) + (if m.Some? && c.Some? then [FileItem(m.value, f, c.value)] else [])
  }

  /** The submission list: groups first, then ungrouped files. */
  function Assemble(s: Session): seq<SubmissionItem> {
    GroupsItems(s.fileGroups, s.formData, s.complexity) + FileItems(s.files, s.formData, s.complexity)
  }

  /** The body of one article: fixed MIME types, defaulted duration and revoked date; `relevance` is not sent. */
  function Format(item: SubmissionItem): (dto: CreateArticleDto)
    ensures dto.coverFileMimeType == "image/jpeg" && dto.contentFileMimeType == "application/pdf"
    ensures dto.duration != 0
    ensures item.pageCount.Some? && item.pageCount.value != 0 ==> dto.duration == item.pageCount.value
    ensures dto.revokedAt.None? <==> item.shared.revokedAt == ""
    ensures dto.title == item.title && dto.fileUuid == item.id && dto.size == item.size && dto.coverImage == item.coverImage
  {
    var sh := item.shared;
    CreateArticleDto(
      item.title, item.description, "image/jpeg", "application/pdf",
      NumberOr(item.pageCount, 1),
      sh.aiGenerated, sh.internalUseOnly,
      if sh.revokedAt != "" then Some(sh.revokedAt) else None,
      sh.mediaId, sh.sourceId, sh.educationalMethodologyId, sh.educationalFrameworkId, sh.educationalToolId,
      sh.languageId, sh.articleBusinessUnits, sh.articleCourses, sh.articleRegions,
      item.size, item.id, item.coverImage)
  }

  /** An ungrouped file is submitted exactly when it has both a metadata and a complexity entry. */
  lemma {:induction false} FileItemsAppend(a: seq<FileWithUuid>, b: seq<FileWithUuid>,
                                           formData: seq<ArticleMetadata>, complexity: seq<ComplexityEntry>)
    ensures FileItems(a + b, formData, complexity) == FileItems(a, formData, complexity) + FileItems(b, formData, complexity)
    decreases |b|
  {
    if b == [] {
      assert a + b == a;
    } else {
      var b0 := b[..|b| - 1];
      assert (a + b)[..|a + b| - 1] == a + b0;
      FileItemsAppend(a, b0, formData, complexity);
    }
  }

  lemma FileItemsSingle(f: FileWithUuid, formData: seq<ArticleMetadata>, complexity: seq<ComplexityEntry>)
    ensures FileItems([f], formData, complexity) != [] <==>
      Lookup(formData, MetadataId, f.name).Some? && Lookup(complexity, ComplexityId, f.name).Some?
  {
    assert [f][..0] == [];
  }

  /** The metadata and complexity entries a group needs for one record per member. */
  predicate GroupReady(g: FileGroup, formData: seq<ArticleMetadata>, complexity: seq<ComplexityEntry>) {
    var gm := Lookup(formData, MetadataId, g.id);
    gm.Some? && gm.value.fileMetadata.Some? && |gm.value.fileMetadata.value| == |g.files| &&
    Lookup(complexity, ComplexityId, g.id).Some?
  }

  predicate FileReady(f: FileWithUuid, formData: seq<ArticleMetadata>, complexity: seq<ComplexityEntry>) {
    Lookup(formData, MetadataId, f.name).Some? && Lookup(complexity, ComplexityId, f.name).Some?
  }

  /** A record stands for a file: it carries the file's identifier and size. */
  predicate CarriesFile(item: SubmissionItem, f: FileWithUuid) {
    item.id == f.uuid && item.size == Some(f.size)
  }

  predicate CarriesFiles(items: seq<SubmissionItem>, fs: seq<FileWithUuid>) {
    |items| == |fs| && forall k :: 0 <= k < |items| ==> CarriesFile(items[k], fs[k])
  }

  lemma CarriesFilesAppend(a: seq<SubmissionItem>, b: seq<SubmissionItem>, fa: seq<FileWithUuid>, fb: seq<FileWithUuid>)
    requires CarriesFiles(a, fa) && CarriesFiles(b, fb)
    ensures CarriesFiles(a + b, fa + fb)
  {
    forall k | 0 <= k < |a + b|
      ensures CarriesFile((a + b)[k], (fa + fb)[k])
    {
      if k >= |a| {
        assert (a + b)[k] == b[k - |a|] && (fa + fb)[k] == fb[k - |a|];
      }
    }
  }

  /**
   * With every entity ready, the submission holds one record per physical file:
   * the members of the groups in order, then the ungrouped files, record `k`
   * carrying the identifier and size of the `k`-th of them.
   */
  lemma SubmissionCoversEveryFile(s: Session)
    requires forall i :: 0 <= i < |s.fileGroups| ==> GroupReady(s.fileGroups[i], s.formData, s.complexity)
    requires forall i :: 0 <= i < |s.files| ==> FileReady(s.files[i], s.formData, s.complexity)
    ensures |Assemble(s)| == |AllFiles(s)|
    ensures multiset(GroupedFiles(s.fileGroups) + s.files) == multiset(AllFiles(s))
    ensures CarriesFiles(Assemble(s), GroupedFiles(s.fileGroups) + s.files)
  {
    GroupsItemsMatchFiles(s.fileGroups, s.formData, s.complexity);
    FileItemsMatchFiles(s.files, s.formData, s.complexity);
    CarriesFilesAppend(GroupsItems(s.fileGroups, s.formData, s.complexity), FileItems(s.files, s.formData, s.complexity),
                       GroupedFiles(s.fileGroups), s.files);
  }

  /** A ready group yields, for each member in order, the record built from its entry and the group's. */
  lemma GroupItemsPerMember(g: FileGroup, formData: seq<ArticleMetadata>, complexity: seq<ComplexityEntry>)
    requires GroupReady(g, formData, complexity)
    ensures var gm := Lookup(formData, MetadataId, g.id).value;
      var gc := Lookup(complexity, ComplexityId, g.id).value;
      var items := GroupItems(g, formData, complexity);
      |items| == |g.files| &&
      forall i :: 0 <= i < |items| ==> items[i] == GroupMemberItem(gm, gm.fileMetadata.value[i], g.files[i], gc)
  {
  }

  /** Groups with complete entries yield one record per member, each carrying that member's identifier and size. */
  lemma {:induction false} GroupsItemsMatchFiles(gs: seq<FileGroup>, formData: seq<ArticleMetadata>, complexity: seq<ComplexityEntry>)
    requires forall i :: 0 <= i < |gs| ==> GroupReady(gs[i], formData, complexity)
    ensures CarriesFiles(GroupsItems(gs, formData, complexity), GroupedFiles(gs))
    decreases |gs|
  {
    if gs != [] {
      var init := gs[..|gs| - 1];
      assert forall i :: 0 <= i < |init| ==> init[i] == gs[i];
      GroupsItemsMatchFiles(init, formData, complexity);
      var g := Last(gs);
      assert GroupReady(g, formData, complexity);
      GroupItemsPerMember(g, formData, complexity);
      CarriesFilesAppend(GroupsItems(init, formData, complexity), GroupItems(g, formData, complexity),
                         GroupedFiles(init), g.files);
    }
  }

  /** The record of a file with both entries. */
  function ReadyFileItem(f: FileWithUuid, formData: seq<ArticleMetadata>, complexity: seq<ComplexityEntry>): SubmissionItem
    requires FileReady(f, formData, complexity)
  {
    FileItem(Lookup(formData, MetadataId, f.name).value, f, Lookup(complexity, ComplexityId, f.name).value)
  }

  /** Ungrouped files with complete entries yield, in order, the record built from each file and its two entries. */
  lemma {:induction false} FileItemsMatchFiles(fs: seq<FileWithUuid>, formData: seq<ArticleMetadata>, complexity: seq<ComplexityEntry>)
    requires forall i :: 0 <= i < |fs| ==> FileReady(fs[i], formData, complexity)
    ensures |FileItems(fs, formData, complexity)| == |fs|
    ensures forall i :: 0 <= i < |fs| ==> FileItems(fs, formData, complexity)[i] == ReadyFileItem(fs[i], formData, complexity)
    ensures CarriesFiles(FileItems(fs, formData, complexity), fs)
    decreases |fs|
  {
    if fs != [] {
      var init := fs[..|fs| - 1];
      assert forall i :: 0 <= i < |init| ==> init[i] == fs[i];
      FileItemsMatchFiles(init, formData, complexity);
      var f := Last(fs);
      assert FileReady(f, formData, complexity);
      var r := FileItems(fs, formData, complexity);
      assert r == FileItems(init, formData, complexity) + [ReadyFileItem(f, formData, complexity)];
      forall i | 0 <= i < |fs|
        ensures r[i] == ReadyFileItem(fs[i], formData, complexity) && CarriesFile(r[i], fs[i])
      {
        if i < |init| {
          assert fs[i] == init[i];
        }
      }
    }
  }

  /**
   * A member's own page count is not copied: a group record from the group form
   * has no page count, so every member is sent with duration 1.
   */
  lemma GroupedDurationIsOne(gm: ArticleMetadata, fm: seq<FileMetadata>, files: seq<FileWithUuid>, cx: ComplexityEntry, i: nat)
    requires gm.pageCount.None? && i < |fm| && i < |files|
    ensures Format(GroupMemberItems(gm, fm, files, cx, |fm|)[i]).duration == 1
    ensures GroupMemberItems(gm, fm, files, cx, |fm|)[i].title == Some(fm[i].title)
    ensures GroupMemberItems(gm, fm, files, cx, |fm|)[i].id == files[i].uuid
  {
  }

  // ----- the page -----

  /** The page component: its state variables and the processing hook it uses. */
  /** The loop of `handleFileUploaded` that starts tracking each added file with an identifier, in order. */
  method TrackAll(tracker: FileTracker, added: seq<FileWithUuid>)
    modifies tracker
    ensures tracker.State() == TrackUploads(old(tracker.State()), added)
  {
    var i := 0;
    while i < |added|
      invariant 0 <= i <= |added|
      invariant tracker.State() == TrackUploads(old(tracker.State()), added[..i])
    {
      assert added[..i + 1][..i] == added[..i];
      if added[i].uuid.Some? {
        tracker.Track(added[i].uuid.value);
      }
      i := i + 1;
    }
    assert added[..|added|] == added;
  }

  class NewArticleWizard {
    var currentStep: nat
    var files: seq<FileWithUuid>
    var fileGroups: seq<FileGroup>
    var selectedFileName: string
    var formData: seq<ArticleMetadata>
    var validity: seq<ValidityEntry>
    var relevance: seq<RelevanceEntry>
    var complexity: seq<ComplexityEntry>
    const tracker: FileTracker

    function State(): Session
      reads this
    {
      Session(currentStep, files, fileGroups, selectedFileName, formData, validity, relevance, complexity)
    }

    constructor ()
      ensures State() == InitialSession && fresh(tracker) && tracker.State() == EmptyTracker
    {
      currentStep := 0;
      files := [];
      fileGroups := [];
      selectedFileName := "";
      formData := [];
      validity := [];
      relevance := [];
      complexity := [];
      tracker := new FileTracker();
    }

    method HandleNext()
      modifies this
      ensures State() == Next(old(State()))
    {
      if currentStep < |Steps| - 1 {
        if currentStep == 0 && |files| > 0 && selectedFileName == "" {
          selectedFileName := files[0].name;
        }
        currentStep := currentStep + 1;
      }
    }

    method HandlePrevious()
      modifies this
      ensures State() == Previous(old(State()))
    {
      if currentStep > 0 {
        currentStep := currentStep - 1;
      }
    }

    method RunAutoSelect()
      modifies this
      ensures State() == AutoSelect(old(State()))
    {
      if currentStep > 0 && |fileGroups| > 0 && selectedFileName == "" {
        selectedFileName := fileGroups[0].id;
      } else if currentStep > 0 && |files| > 0 && selectedFileName == "" {
        selectedFileName := files[0].name;
      }
    }

    method SelectFile(name: string)
      modifies this
      ensures State() == old(State()).(selectedFileName := name)
    {
      selectedFileName := name;
    }

    /** Adds the new files, then starts tracking each new file that has an identifier, in order. */
    method HandleFileUploaded(newFiles: seq<FileWithUuid>)
      modifies this, tracker
      ensures State() == WithUploads(old(State()), newFiles)
      ensures tracker.State() == TrackUploads(old(tracker.State()), UniqueNewFiles(old(files), newFiles))
    {
      var added := UniqueNewFiles(files, newFiles);
      if added == [] {
        return;
      }
      files := files + added;
      TrackAll(tracker, added);
    }

    /** Drops the file and its metadata entry, and stops its polling. */
    method RemoveFile(f: FileWithUuid)
      modifies this, tracker
      ensures State() == WithFileRemoved(old(State()), f)
      ensures tracker.State() == if f.uuid.Some? then StopTracking(old(tracker.State()), f.uuid.value) else old(tracker.State())
    {
      var remaining := Filter(files, IsNot(f));
      if f.uuid.Some? {
        tracker.Stop(f.uuid.value);
      }
      if selectedFileName == f.name {
        selectedFileName := if |remaining| > 0 then remaining[0].name else "";
      }
      files := remaining;
      formData := Filter(formData, Not(KeyIs(MetadataId, f.name)));
    }

    method HandleGroupFiles(sel: seq<FileWithUuid>, now: nat)
      modifies this
      ensures State() == WithFilesGrouped(old(State()), sel, GroupId(now))
    {
      if |sel| < 2 {
        return;
      }
      var groupId := GroupId(now);
      fileGroups := fileGroups + [FileGroup(groupId, sel)];
      files := Filter(files, NotIn(sel));
      if Any(sel, HasName(selectedFileName)) {
        selectedFileName := groupId;
      }
    }

    method Ungroup(g: FileGroup)
      modifies this
      ensures State() == WithGroupDissolved(old(State()), g)
    {
      files := files + g.files;
      fileGroups := Filter(fileGroups, Not(KeyIs(GroupKey, g.id)));
    }

    /** `findIndex`, then overwrite at that index or append. */
    method UpdateMetadata(id: string, data: ArticleMetadata)
      modifies this
      ensures State() == WithMetadata(old(State()), id, data)
    {
      var index := FindIndex(formData, KeyIs(MetadataId, id));
      if index >= 0 {
        formData := formData[index := data.(id := id)];
      } else {
        formData := formData + [data.(id := id)];
      }
    }

    method CheckIsMetadataValid(id: string, isValid: Option<bool>)
      modifies this
      ensures State() == WithValidity(old(State()), id, isValid)
    {
      var index := FindIndex(validity, KeyIs(ValidityId, id));
      if index >= 0 {
        validity := validity[index := ValidityEntry(id, isValid)];
      } else {
        validity := validity + [ValidityEntry(id, isValid)];
      }
    }

    method OnRelevancyChange(id: string, selectedSkills: seq<int>)
      modifies this
      ensures State() == WithRelevance(old(State()), id, selectedSkills)
    {
      var index := FindIndex(relevance, KeyIs(RelevanceId, id));
      var hasSelectedSkills := HasSelectedSkills(selectedSkills);
      if index >= 0 {
        var isTouched := hasSelectedSkills || relevance[index].isTouched;
        relevance := relevance[index := RelevanceEntry(id, selectedSkills, isTouched)];
      } else {
        relevance := relevance + [RelevanceEntry(id, selectedSkills, hasSelectedSkills)];
      }
    }

    method OnComplexityChange(id: string, values: seq<int>)
      modifies this
      ensures State() == WithComplexity(old(State()), id, values)
    {
      var index := FindIndex(complexity, KeyIs(ComplexityId, id));
      if index >= 0 {
        complexity := complexity[index := ComplexityEntry(id, values)];
      } else {
        complexity := complexity + [ComplexityEntry(id, values)];
      }
    }

    /** Builds the submission list group by group, then file by file, and formats it. */
    method HandleSubmit() returns (articles: seq<CreateArticleDto>)
      ensures articles == Map(Assemble(State()), Format)
    {
      var groupPart := CollectGroups(fileGroups, formData, complexity);
      var submission := CollectFiles(groupPart, files, formData, complexity);
      articles := FormatAll(submission);
    }
  }

  /** The first loop of `handleSubmit`: the records of every group, group by group. */
  method CollectGroups(fileGroups: seq<FileGroup>, formData: seq<ArticleMetadata>, complexity: seq<ComplexityEntry>)
    returns (submission: seq<SubmissionItem>)
    ensures submission == GroupsItems(fileGroups, formData, complexity)
  {
    submission := [];
    var i := 0;
    while i < |fileGroups|
      invariant 0 <= i <= |fileGroups|
      invariant submission == GroupsItems(fileGroups[..i], formData, complexity)
    {
      assert fileGroups[..i + 1][..i] == fileGroups[..i];
      var items := CollectGroup(fileGroups[i], formData, complexity);
      submission := submission + items;
      i := i + 1;
    }
    assert fileGroups[..|fileGroups|] == fileGroups;
  }

  /** The second loop: a record for each ungrouped file that has both metadata and a complexity entry. */
  method CollectFiles(groupPart: seq<SubmissionItem>, files: seq<FileWithUuid>, formData: seq<ArticleMetadata>,
                      complexity: seq<ComplexityEntry>)
    returns (submission: seq<SubmissionItem>)
    ensures submission == groupPart + FileItems(files, formData, complexity)
  {
    submission := groupPart;
    var k := 0;
    while k < |files|
      invariant 0 <= k <= |files|
      invariant submission == groupPart + FileItems(files[..k], formData, complexity)
    {
      var file := files[k];
      assert files[..k + 1][..k] == files[..k];
      var m := Lookup(formData, MetadataId, file.name);
      var c := Lookup(complexity, ComplexityId, file.name);
      if m.Some? && c.Some? {
        submission := submission + [FileItem(m.value, file, c.value)];
      }
      k := k + 1;
    }
    assert files[..|files|] == files;
  }

  /** The records of one group: the `fileMetadata` loop, or the fallback once per member. */
  method CollectGroup(group: FileGroup, formData: seq<ArticleMetadata>, complexity: seq<ComplexityEntry>)
    returns (items: seq<SubmissionItem>)
    ensures items == GroupItems(group, formData, complexity)
  {
    items := [];
    var groupMetadata := Lookup(formData, MetadataId, group.id);
    var groupComplexity := Lookup(complexity, ComplexityId, group.id);
    if groupMetadata.None? || groupComplexity.None? {
      return;
    }
    var gm, cx := groupMetadata.value, groupComplexity.value;
    if gm.fileMetadata.None? {
      items := seq(|group.files|, _ => GroupFallbackItem(gm, cx));
      return;
    }
    var fm := gm.fileMetadata.value;
    var j := 0;
    while j < |fm|
      invariant 0 <= j <= |fm|
      invariant items == GroupMemberItems(gm, fm, group.files, cx, j)
    {
      if j < |group.files| {
        items := items + [GroupMemberItem(gm, fm[j], group.files[j], cx)];
      }
      j := j + 1;
    }
  }

  /** The request bodies, one per record, in order. */
  method FormatAll(submission: seq<SubmissionItem>) returns (articles: seq<CreateArticleDto>)
    ensures articles == Map(submission, Format)
  {
    articles := [];
    var n := 0;
    while n < |submission|
      invariant 0 <= n <= |submission|
      invariant |articles| == n && forall t :: 0 <= t < n ==> articles[t] == Format(submission[t])
    {
      articles := articles + [Format(submission[n])];
      n := n + 1;
    }
  }
}
