/**
 * The upload dropzone: PDFs among the dropped files are uploaded (the
 * back end's answers are inputs), and the ones that did not throw are
 * handed to the wizard in one call.
 */
module NewArticleForm {
  import opened Wrappers
  import opened Seqs
  import opened ArticleModels

  const PdfType: string := "application/pdf"

  /** A dropped browser file. */
  datatype DroppedFile = DroppedFile(name: string, size: int, mimeType: string)

  /**
   * What one upload came to: an exception anywhere in the two requests, or
   * the generate-url body's `uuid` (absent when the body has none). HTTP
   * statuses are never checked, so a failed PUT still counts as a response.
   */
  datatype UploadOutcome = Threw | Responded(uuid: Option<string>)

  function IsPdf(f: DroppedFile): bool {
    f.mimeType == PdfType
  }

  /** `acceptedFiles.filter(file => file.type === 'application/pdf')` */
  function PdfFiles(dropped: seq<DroppedFile>): (r: seq<DroppedFile>)
    ensures forall i :: 0 <= i < |r| ==> r[i].mimeType == PdfType && r[i] in dropped
    ensures forall i :: 0 <= i < |dropped| && dropped[i].mimeType == PdfType ==> dropped[i] in r
  {
    var r := Filter(dropped, IsPdf);
    assert forall i :: 0 <= i < |r| ==> IsPdf(r[i]);
    r
  }

  /** The handle a successful upload yields. */
  datatype Handle = Handle(name: string, size: int, uuid: Option<string>)

  function HandleOf(f: FileWithUuid): Handle
    reads {}
  {
    Handle(f.name, f.size, f.uuid)
  }

  /** The surviving uploads in input order: `map`, then `filter(upload !== null)`. */
  function Survivors(pdfs: seq<DroppedFile>, outcomes: seq<UploadOutcome>): (r: seq<Handle>)
    requires |outcomes| == |pdfs|
    ensures |r| <= |pdfs|
    decreases |pdfs|
  {
    if pdfs == [] then []
    else
      var n := |pdfs| - 1;
      Survivors(pdfs[..n], outcomes[..n]) +
      (if outcomes[n].Responded? then [Handle(pdfs[n].name, pdfs[n].size, outcomes[n].uuid)] else [])
  }

  function Responded(o: UploadOutcome): bool {
    o.Responded?
  }

  /** A file is dropped exactly when its upload threw. */
  lemma {:induction false} SurvivorsCount(pdfs: seq<DroppedFile>, outcomes: seq<UploadOutcome>)
    requires |outcomes| == |pdfs|
    ensures |Survivors(pdfs, outcomes)| == |Filter(outcomes, Responded)|
    decreases |pdfs|
  {
    if pdfs != [] {
      var n := |pdfs| - 1;
      SurvivorsCount(pdfs[..n], outcomes[..n]);
      assert outcomes == outcomes[..n] + [outcomes[n]];
      FilterAppend(outcomes[..n], [outcomes[n]], Responded);
      assert Filter([outcomes[n]], Responded) == if Responded(outcomes[n]) then [outcomes[n]] else [] by {
        assert [outcomes[n]][1..] == [];
      }
    }
  }

  /** Each PDF beside what its upload came to. */
  function Uploads(pdfs: seq<DroppedFile>, outcomes: seq<UploadOutcome>): (r: seq<(DroppedFile, UploadOutcome)>)
    requires |outcomes| == |pdfs|
    ensures |r| == |pdfs| && forall i :: 0 <= i < |r| ==> r[i] == (pdfs[i], outcomes[i])
  {
    seq(|pdfs|, i requires 0 <= i < |pdfs| => (pdfs[i], outcomes[i]))
  }

  function UploadSurvived(u: (DroppedFile, UploadOutcome)): bool {
    u.1.Responded?
  }

  function UploadHandle(u: (DroppedFile, UploadOutcome)): Handle
    requires u.1.Responded?
  {
    Handle(u.0.name, u.0.size, u.1.uuid)
  }

  /**
   * The handed list is exactly the uploads that did not throw, in drop order,
   * each as its PDF's name and size with the returned uuid.
   */
  lemma {:induction false} SurvivorsAreRespondedUploads(pdfs: seq<DroppedFile>, outcomes: seq<UploadOutcome>)
    requires |outcomes| == |pdfs|
    ensures var kept := Filter(Uploads(pdfs, outcomes), UploadSurvived);
      |Survivors(pdfs, outcomes)| == |kept| &&
      forall k :: 0 <= k < |kept| ==> kept[k].1.Responded? && Survivors(pdfs, outcomes)[k] == UploadHandle(kept[k])
    ensures Subsequence(Filter(Uploads(pdfs, outcomes), UploadSurvived), Uploads(pdfs, outcomes))
    decreases |pdfs|
  {
    FilterIsSubsequence(Uploads(pdfs, outcomes), UploadSurvived);
    if pdfs != [] {
      var n := |pdfs| - 1;
      SurvivorsAreRespondedUploads(pdfs[..n], outcomes[..n]);
      var init := Uploads(pdfs[..n], outcomes[..n]);
      var last := (pdfs[n], outcomes[n]);
      assert Uploads(pdfs, outcomes) == init + [last];
      FilterAppend(init, [last], UploadSurvived);
      assert Filter([last], UploadSurvived) == if UploadSurvived(last) then [last] else [] by {
        assert [last][1..] == [];
      }
      var a := Survivors(pdfs[..n], outcomes[..n]);
      var ka := Filter(init, UploadSurvived);
      if UploadSurvived(last) {
        var kept := ka + [last];
        forall k | 0 <= k < |kept|
          ensures kept[k].1.Responded? && Survivors(pdfs, outcomes)[k] == UploadHandle(kept[k])
        {
          if k < |ka| {
            assert kept[k] == ka[k];
            assert Survivors(pdfs, outcomes)[k] == a[k];
          }
        }
      }
    }
  }

  /** When no upload threw, every PDF yields its handle, in order. */
  lemma {:induction false} SurvivorsAllResponded(pdfs: seq<DroppedFile>, outcomes: seq<UploadOutcome>)
    requires |outcomes| == |pdfs|
    requires forall i :: 0 <= i < |outcomes| ==> outcomes[i].Responded?
    ensures Survivors(pdfs, outcomes) == seq(|pdfs|, i requires 0 <= i < |pdfs| => Handle(pdfs[i].name, pdfs[i].size, outcomes[i].uuid))
    decreases |pdfs|
  {
    if pdfs != [] {
      var n := |pdfs| - 1;
      SurvivorsAllResponded(pdfs[..n], outcomes[..n]);
    }
  }

  /** The dropzone's one piece of state. */
  class Dropzone {
    var isUploading: bool

    constructor ()
      ensures !isUploading
    {
      isUploading := false;
    }

    /** The dropzone refuses drops while a batch is uploading. */
    predicate AcceptsDrops()
      reads this
    {
      !isUploading
    }

    /** The first half of `onDrop`: picks the PDFs and marks the batch as uploading when there are any. */
    method StartDrop(dropped: seq<DroppedFile>) returns (pdfs: seq<DroppedFile>)
      requires AcceptsDrops()
      modifies this
      ensures pdfs == PdfFiles(dropped)
      ensures isUploading <==> pdfs != []
    {
      pdfs := PdfFiles(dropped);
      if |pdfs| > 0 {
        isUploading := true;
      }
    }

    /**
     * The second half: builds a handle per upload that did not throw, in order,
     * clears the flag, and hands the list over; with no PDFs nothing is called.
     */
    method FinishDrop(pdfs: seq<DroppedFile>, outcomes: seq<UploadOutcome>) returns (selected: Option<seq<FileWithUuid>>)
      requires |outcomes| == |pdfs|
      modifies this
      ensures pdfs == [] ==> selected.None? && isUploading == old(isUploading)
      ensures pdfs != [] ==> selected.Some? && !isUploading && Map(selected.value, HandleOf) == Survivors(pdfs, outcomes)
      ensures selected.Some? ==> forall i :: 0 <= i < |selected.value| ==> fresh(selected.value[i])
    {
      if |pdfs| == 0 {
        return None;
      }
      var resolved: seq<FileWithUuid> := [];
      var i := 0;
      while i < |pdfs|
        invariant 0 <= i <= |pdfs|
        invariant Map(resolved, HandleOf) == Survivors(pdfs[..i], outcomes[..i])
        invariant forall k :: 0 <= k < |resolved| ==> fresh(resolved[k])
      {
        assert pdfs[..i + 1][..i] == pdfs[..i] && outcomes[..i + 1][..i] == outcomes[..i];
        if outcomes[i].Responded? {
          var f := new FileWithUuid(pdfs[i].name, pdfs[i].size, outcomes[i].uuid);
          MapAppendOne(resolved, f, HandleOf);
          resolved := resolved + [f];
        }
        i := i + 1;
      }
      assert pdfs[..|pdfs|] == pdfs && outcomes[..|outcomes|] == outcomes;
      isUploading := false;
      selected := Some(resolved);
    }
  }

  lemma MapAppendOne<T, U>(xs: seq<T>, x: T, f: T -> U)
    ensures Map(xs + [x], f) == Map(xs, f) + [f(x)]
  {
  }

  /** A drop without PDFs never reaches the wizard; one with PDFs always does, even when every upload threw. */
  lemma DropReachesWizard(dropped: seq<DroppedFile>)
    ensures PdfFiles(dropped) == [] <==> forall i :: 0 <= i < |dropped| ==> dropped[i].mimeType != PdfType
  {
    FilterEmptyIffNone(dropped, IsPdf);
  }
}
