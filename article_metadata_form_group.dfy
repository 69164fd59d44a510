/**
 * The metadata form of a file group: one title/description/page-count/cover
 * entry per member file, plus the shared fields of the single-file form.
 */
module ArticleMetadataFormGroup {
  import opened Wrappers
  import opened ArticleModels
  import opened FileUploadPoll
  import opened ArticleMetadataForm

  datatype GroupFormValues = GroupFormValues(fileMetadata: seq<FileMetadata>, shared: SharedFields)

  /** The rules of one `fileMetadata` entry. */
  predicate FileMetadataValid(m: FileMetadata) {
    m.fileId != "" && m.fileName != "" && DocumentDetailsValid(m.title, m.description, m.pageCount)
  }

  /**
   * The group schema: exactly one entry per member, each valid, and the shared
   * rules. The per-index rules built beside the schema are never attached to it.
   */
  predicate GroupValid(v: GroupFormValues, memberCount: nat) {
    |v.fileMetadata| == memberCount &&
    (forall i :: 0 <= i < |v.fileMetadata| ==> FileMetadataValid(v.fileMetadata[i])) &&
    SharedValid(v.shared)
  }

  /** The entry a member starts with; its name serves as id, file name and title. */
  function InitialEntry(file: FileWithUuid): (m: FileMetadata)
    ensures m.fileId == file.name && m.fileName == file.name && m.title == file.name
    ensures !FileMetadataValid(m)
  {
    FileMetadata(file.name, file.name, file.name, "", 1, Some(""))
  }

  /** `initialFileMetadata`: one entry per member, in group order. */
  function InitialFileMetadata(files: seq<FileWithUuid>): (r: seq<FileMetadata>)
    ensures |r| == |files|
    ensures forall i :: 0 <= i < |files| ==> r[i] == InitialEntry(files[i])
  {
    seq(|files|, i requires 0 <= i < |files| => InitialEntry(files[i]))
  }

  function DefaultGroupValues(files: seq<FileWithUuid>, revokedAt: string): (v: GroupFormValues)
    ensures |v.fileMetadata| == |files|
  {
    GroupFormValues(InitialFileMetadata(files), DefaultShared(revokedAt))
  }

  /** The defaults are invalid, whatever the members. */
  lemma DefaultGroupInvalid(files: seq<FileWithUuid>, revokedAt: string)
    ensures !GroupValid(DefaultGroupValues(files, revokedAt), |files|)
  {
  }

  /** The analysis published for a member, if it has an identifier and its entry holds one. */
  function MemberAnalysis(file: FileWithUuid, statuses: map<string, FileStatus>): (r: Option<FileAnalysis>)
    ensures r.Some? ==> file.uuid.Some? && file.uuid.value in statuses && statuses[file.uuid.value].analysis == r
  {
    if file.uuid.Some? && file.uuid.value in statuses then statuses[file.uuid.value].analysis else None
  }

  /** Truthy analysis fields overwrite one entry. */
  function PrefillEntry(m: FileMetadata, a: FileAnalysis): (r: FileMetadata)
    ensures r.fileId == m.fileId && r.fileName == m.fileName && r.coverImage == m.coverImage
  {
    m.(title := OrElse(a.title, m.title),
       description := OrElse(a.description, m.description),
       pageCount := if a.pages != 0 then a.pages else m.pageCount)
  }

  function PrefillMember(m: FileMetadata, file: FileWithUuid, statuses: map<string, FileStatus>): FileMetadata {
    var a := MemberAnalysis(file, statuses);
    if a.Some? then PrefillEntry(m, a.value) else m
  }

  /** The prefill effect over every member, whatever the status (no processing check, no guard). */
  function PrefillGroup(ms: seq<FileMetadata>, files: seq<FileWithUuid>, statuses: map<string, FileStatus>): (r: seq<FileMetadata>)
    requires |ms| == |files|
    ensures |r| == |ms|
  {
    seq(|ms|, i requires 0 <= i < |ms| => PrefillMember(ms[i], files[i], statuses))
  }

  /** Running the prefill again with the same statuses changes nothing more. */
  lemma PrefillGroupIdempotent(ms: seq<FileMetadata>, files: seq<FileWithUuid>, statuses: map<string, FileStatus>)
    requires |ms| == |files|
    ensures PrefillGroup(PrefillGroup(ms, files, statuses), files, statuses) == PrefillGroup(ms, files, statuses)
  {
  }

  /**
   * Without a guard, every re-run overwrites what the user typed: an edited
   * title of a member with an analysis title is reset to the analysis title.
   */
  lemma ReapplicationOverwritesEdits(ms: seq<FileMetadata>, files: seq<FileWithUuid>,
                                      statuses: map<string, FileStatus>, i: nat, typed: string)
    requires |ms| == |files| && i < |ms|
    requires MemberAnalysis(files[i], statuses).Some? && MemberAnalysis(files[i], statuses).value.title != ""
    ensures var edited := PrefillGroup(ms, files, statuses)[i := PrefillGroup(ms, files, statuses)[i].(title := typed)];
      PrefillGroup(edited, files, statuses)[i].title == MemberAnalysis(files[i], statuses).value.title
  {
  }

  /** The prefill touches only members with an analysis, and never ids, names or covers. */
  lemma PrefillFrames(ms: seq<FileMetadata>, files: seq<FileWithUuid>, statuses: map<string, FileStatus>, i: nat)
    requires |ms| == |files| && i < |ms|
    ensures MemberAnalysis(files[i], statuses).None? ==> PrefillGroup(ms, files, statuses)[i] == ms[i]
    ensures PrefillGroup(ms, files, statuses)[i].fileId == ms[i].fileId
    ensures PrefillGroup(ms, files, statuses)[i].coverImage == ms[i].coverImage
  {
  }

  /** The alert shown for a rejected cover of a member. */
  function GroupCoverAlert(r: CoverCheck, memberName: string): (m: string)
    requires r != Accepted
  {
    if r == TooLarge then "Cover image for " + memberName + " must be smaller than 2MB"
    else "Please select a JPEG, PNG, or WebP image"
  }

  /** What `onChange(fileGroup.id, watchedValues)` stores for the group. */
  function AsGroupMetadata(groupId: string, v: GroupFormValues): (m: ArticleMetadata)
    ensures m.id == groupId && m.fileMetadata == Some(v.fileMetadata)
    ensures m.title.None? && m.description.None? && m.pageCount.None? && m.coverImage.None?
  {
    ArticleMetadata(groupId, None, None, None, None, v.shared, Some(v.fileMetadata))
  }

  class GroupMetadataForm {
    const groupId: string
    const files: seq<FileWithUuid>
    var values: GroupFormValues
    /** The chosen cover file and its preview URL, per member index. */
    var coverFiles: map<nat, CoverFile>
    var coverPreviews: map<nat, string>

    predicate Valid()
      reads this
    {
      |values.fileMetadata| == |files|
    }

    constructor (groupId: string, files: seq<FileWithUuid>, revokedAt: string)
      ensures this.groupId == groupId && this.files == files && Valid()
      ensures values == DefaultGroupValues(files, revokedAt)
      ensures coverFiles == map[] && coverPreviews == map[]
    {
      this.groupId := groupId;
      this.files := files;
      values := DefaultGroupValues(files, revokedAt);
      coverFiles := map[];
      coverPreviews := map[];
    }

    /** The prefill effect: a pass over the members, writing each member's analysis fields. */
    method OnFileStatuses(statuses: map<string, FileStatus>)
      requires Valid()
      modifies this
      ensures Valid()
      ensures values == old(values).(fileMetadata := PrefillGroup(old(values.fileMetadata), files, statuses))
      ensures coverFiles == old(coverFiles) && coverPreviews == old(coverPreviews)
    {
      var i := 0;
      while i < |files|
        invariant 0 <= i <= |files| && Valid()
        invariant values.shared == old(values.shared)
        invariant forall k :: 0 <= k < i ==>
          values.fileMetadata[k] == PrefillMember(old(values.fileMetadata[k]), files[k], statuses)
        invariant forall k :: i <= k < |files| ==> values.fileMetadata[k] == old(values.fileMetadata[k])
        invariant coverFiles == old(coverFiles) && coverPreviews == old(coverPreviews)
      {
        var file := files[i];
        if file.uuid.Some? && file.uuid.value in statuses && statuses[file.uuid.value].analysis.Some? {
          var a := statuses[file.uuid.value].analysis.value;
          var m := values.fileMetadata[i];
          if a.title != "" {
            m := m.(title := a.title);
          }
          if a.description != "" {
            m := m.(description := a.description);
          }
          if a.pages != 0 {
            m := m.(pageCount := a.pages);
          }
          values := values.(fileMetadata := values.fileMetadata[i := m]);
        }
        i := i + 1;
      }
    }

    /** A chosen cover for member `index`: the same limits; an accepted file sets only that member's cover. */
    method HandleCoverFileChange(index: nat, file: CoverFile, previewUrl: string, dataUrl: string) returns (r: CoverCheck)
      requires Valid() && index < |files|
      modifies this
      ensures Valid() && r == CheckCover(file)
      ensures r != Accepted ==>
        values == old(values) && coverFiles == old(coverFiles) && coverPreviews == old(coverPreviews)
      ensures r == Accepted ==>
        coverFiles == old(coverFiles)[index := file] && coverPreviews == old(coverPreviews)[index := previewUrl] &&
        values == old(values).(fileMetadata := old(values.fileMetadata)[index :=
          old(values.fileMetadata[index]).(coverImage := DataUrlPayload(dataUrl))])
    {
      r := CheckCover(file);
      if r == Accepted {
        coverFiles := coverFiles[index := file];
        coverPreviews := coverPreviews[index := previewUrl];
        var m := values.fileMetadata[index];
        values := values.(fileMetadata := values.fileMetadata[index := m.(coverImage := DataUrlPayload(dataUrl))]);
      }
    }

    /** Resets member `index`'s cover value to `""` and forgets only its entries of the cover maps. */
    method RemoveCoverImage(index: nat)
      requires Valid() && index < |files|
      modifies this
      ensures Valid()
      ensures values == old(values).(fileMetadata := old(values.fileMetadata)[index :=
        old(values.fileMetadata[index]).(coverImage := Some(""))])
      ensures coverFiles == old(coverFiles) - {index} && coverPreviews == old(coverPreviews) - {index}
    {
      var m := values.fileMetadata[index];
      values := values.(fileMetadata := values.fileMetadata[index := m.(coverImage := Some(""))]);
      coverFiles := coverFiles - {index};
      if index in coverPreviews {
        coverPreviews := coverPreviews - {index};
      }
    }

    method HandleListCheckbox(field: ListField, id: string, checked: bool)
      requires Valid()
      modifies this
      ensures Valid()
      ensures values == old(values).(shared := ToggleShared(old(values).shared, field, id, checked))
      ensures coverFiles == old(coverFiles) && coverPreviews == old(coverPreviews)
    {
      values := values.(shared := ToggleShared(values.shared, field, id, checked));
    }
  }
}
