/**
 * The records that travel through the New Article wizard: uploaded file
 * handles, file groups, the metadata a form reports for one entity, and the
 * payload sent to the back end for each article.
 */
module ArticleModels {
  import opened Wrappers
  import opened Seqs

  /**
   * An uploaded PDF. The wizard compares handles by identity (`!==`,
   * `includes`), so a handle is an object; its fields never change.
   */
  class FileWithUuid {
    const name: string
    const size: int
    /** Absent while the upload has not produced an identifier. */
    const uuid: Option<string>

    constructor (name: string, size: int, uuid: Option<string>)
      ensures this.name == name && this.size == size && this.uuid == uuid
    {
      this.name := name;
      this.size := size;
      this.uuid := uuid;
    }
  }

  /** No two handles carry the same file name. */
  predicate NamesDistinct(files: seq<FileWithUuid>) {
    forall i, j :: 0 <= i < j < |files| ==> files[i].name != files[j].name
  }

  function NamesOf(files: seq<FileWithUuid>): set<string> {
    set i | 0 <= i < |files| :: files[i].name
  }

  lemma {:induction false} NamesOfCard(files: seq<FileWithUuid>)
    requires NamesDistinct(files)
    ensures |NamesOf(files)| == |files|
    decreases |files|
  {
    if files != [] {
      var init := files[..|files| - 1];
      var last := files[|files| - 1];
      assert NamesDistinct(init) by {
        assert forall i :: 0 <= i < |init| ==> init[i] == files[i];
      }
      NamesOfCard(init);
      assert NamesOf(files) == NamesOf(init) + {last.name} by {
        forall x | x in NamesOf(files) ensures x in NamesOf(init) + {last.name} {
          var i :| 0 <= i < |files| && files[i].name == x;
          if i < |init| {
            assert init[i] == files[i];
          }
        }
        forall x | x in NamesOf(init) ensures x in NamesOf(files) {
          var i :| 0 <= i < |init| && init[i].name == x;
          assert files[i] == init[i];
        }
      }
      assert last.name !in NamesOf(init) by {
        forall i | 0 <= i < |init| ensures init[i].name != last.name {
          assert init[i] == files[i];
        }
      }
    }
  }

  /** Dropping handles never introduces a repeated name. */
  lemma {:induction false} FilterNamesDistinct(files: seq<FileWithUuid>, p: FileWithUuid -> bool)
    requires NamesDistinct(files)
    ensures NamesDistinct(Filter(files, p))
    decreases |files|
  {
    if files != [] {
      var tail := files[1..];
      assert NamesDistinct(tail) by {
        assert forall i :: 0 <= i < |tail| ==> tail[i] == files[i + 1];
      }
      FilterNamesDistinct(tail, p);
      if p(files[0]) {
        var rt := Filter(tail, p);
        assert Filter(files, p) == [files[0]] + rt;
        forall i | 0 <= i < |rt| ensures rt[i].name != files[0].name {
          var j :| 0 <= j < |tail| && tail[j] == rt[i];
          assert tail[j] == files[j + 1];
        }
        ConsNamesDistinct(files[0], rt);
      }
    }
  }

  /** A handle in front of distinct names that it does not share keeps them distinct. */
  lemma ConsNamesDistinct(x: FileWithUuid, rt: seq<FileWithUuid>)
    requires NamesDistinct(rt)
    requires forall i :: 0 <= i < |rt| ==> rt[i].name != x.name
    ensures NamesDistinct([x] + rt)
  {
    var r := [x] + rt;
    forall i, j | 0 <= i < j < |r| ensures r[i].name != r[j].name {
      if i == 0 {
        assert r[j] == rt[j - 1];
      } else {
        assert r[i] == rt[i - 1] && r[j] == rt[j - 1];
      }
    }
  }

  /** Two or more uploaded files submitted as separate articles that share metadata. */
  datatype FileGroup = FileGroup(id: string, files: seq<FileWithUuid>)

  /** The per-file part of a group's metadata. */
  datatype FileMetadata = FileMetadata(
    fileId: string,
    fileName: string,
    title: string,
    description: string,
    pageCount: int,
    coverImage: Option<string>)

  /** The fields both metadata forms share. */
  datatype SharedFields = SharedFields(
    revokedAt: string,
    aiGenerated: bool,
    internalUseOnly: bool,
    mediaId: string,
    sourceId: string,
    languageId: string,
    educationalMethodologyId: string,
    educationalFrameworkId: string,
    educationalToolId: string,
    articleBusinessUnits: seq<string>,
    articleCourses: seq<string>,
    articleRegions: seq<string>)

  /**
   * What the wizard stores for one file or group: the form's values plus the id
   * they were reported under. A single-file form fills title, description,
   * page count and cover image; a group form fills `fileMetadata` instead.
   */
  datatype ArticleMetadata = ArticleMetadata(
    id: string,
    title: Option<string>,
    description: Option<string>,
    pageCount: Option<int>,
    coverImage: Option<string>,
    shared: SharedFields,
    fileMetadata: Option<seq<FileMetadata>>)

  /**
   * One entry of the submission list: the stored metadata, overridden per file,
   * with the file's size and identifier and the complexity vector
   * (which the back end reads under the name `relevance`).
   */
  datatype SubmissionItem = SubmissionItem(
    title: Option<string>,
    description: Option<string>,
    pageCount: Option<int>,
    coverImage: Option<string>,
    shared: SharedFields,
    size: Option<int>,
    id: Option<string>,
    relevance: seq<int>)

  /** One article of the `POST /articles/submit` body. */
  datatype CreateArticleDto = CreateArticleDto(
    title: Option<string>,
    description: Option<string>,
    coverFileMimeType: string,
    contentFileMimeType: string,
    duration: int,
    aiGenerated: bool,
    internalUseOnly: bool,
    revokedAt: Option<string>,
    mediaId: string,
    sourceId: string,
    educationalMethodologyId: string,
    educationalFrameworkId: string,
    educationalToolId: string,
    languageId: string,
    articleBusinessUnits: seq<string>,
    articleCourses: seq<string>,
    articleRegions: seq<string>,
    size: Option<int>,
    fileUuid: Option<string>,
    coverImage: Option<string>)

  /** A lookup entry for a select list (media, sources, business units, ...). */
  datatype IdWithName = IdWithName(id: string, name: string)
}
