/**
 * The "Group Files" dialog: a checkbox per ungrouped file, keyed by file name,
 * and a button that hands the checked files, in list order, to the wizard.
 */
module FileGroupModal {
  import opened Wrappers
  import opened Seqs
  import opened ArticleModels

  /** `!!selectedFiles[name]`: a name never touched counts as unchecked. */
  predicate Checked(selected: map<string, bool>, name: string) {
    name in selected && selected[name]
  }

  function IsChecked(selected: map<string, bool>): FileWithUuid -> bool {
    (f: FileWithUuid) => Checked(selected, f.name)
  }

  /** `files.filter(file => selectedFiles[file.name])` */
  function FilesToGroup(files: seq<FileWithUuid>, selected: map<string, bool>): (r: seq<FileWithUuid>)
    ensures |r| <= |files|
    ensures forall i :: 0 <= i < |r| ==> r[i] in files && Checked(selected, r[i].name)
    ensures forall i :: 0 <= i < |files| && Checked(selected, files[i].name) ==> files[i] in r
  {
    var r := Filter(files, IsChecked(selected));
    assert forall i :: 0 <= i < |r| ==> IsChecked(selected)(r[i]);
    r
  }

  /** The names whose flag is true. */
  function CheckedNames(selected: map<string, bool>): set<string> {
    set k | k in selected && selected[k]
  }

  /** `Object.values(selectedFiles).filter(Boolean).length` */
  function SelectedCount(selected: map<string, bool>): (n: nat)
    ensures n <= |selected|
  {
    assert CheckedNames(selected) <= selected.Keys;
    SubsetCard(CheckedNames(selected), selected.Keys);
    |CheckedNames(selected)|
  }

  lemma SubsetCard<T>(a: set<T>, b: set<T>)
    requires a <= b
    ensures |a| <= |b|
  {
    assert b == a + (b - a);
  }

  /**
   * When the names are distinct and every flag belongs to a listed file, the
   * count on the button is the number of files it hands over.
   */
  lemma CountMatchesGroup(files: seq<FileWithUuid>, selected: map<string, bool>)
    requires NamesDistinct(files)
    requires selected.Keys <= NamesOf(files)
    ensures |FilesToGroup(files, selected)| == SelectedCount(selected)
  {
    var r := FilesToGroup(files, selected);
    FilterNamesDistinct(files, IsChecked(selected));
    NamesOfCard(r);
    assert NamesOf(r) == CheckedNames(selected) by {
      forall x | x in CheckedNames(selected) ensures x in NamesOf(r) {
        var i :| 0 <= i < |files| && files[i].name == x;
        assert files[i] in r;
        var j :| 0 <= j < |r| && r[j] == files[i];
      }
    }
  }

  /** The open button appears only with two or more files. */
  predicate ShowsGroupButton(files: seq<FileWithUuid>) {
    |files| > 1
  }

  /** The dialog's state: the checkbox flags and whether it is open. */
  class GroupDialog {
    var selected: map<string, bool>
    var isOpen: bool

    constructor ()
      ensures selected == map[] && !isOpen
    {
      selected := map[];
      isOpen := false;
    }

    /** `handleCheckboxChange`: only this name's flag changes. */
    method CheckboxChange(fileName: string, checked: bool)
      modifies this
      ensures selected == old(selected)[fileName := checked] && isOpen == old(isOpen)
      ensures forall k :: k != fileName ==> (Checked(selected, k) <==> Checked(old(selected), k))
      ensures Checked(selected, fileName) == checked
    {
      selected := selected[fileName := checked];
    }

    /** `onOpenChange`: closing clears every flag. */
    method OpenChange(open: bool)
      modifies this
      ensures isOpen == open
      ensures selected == if open then old(selected) else map[]
    {
      isOpen := open;
      if !open {
        selected := map[];
      }
    }

    /**
     * `handleGroupFiles`: with more than one checked file, hands them over,
     * closes and clears; otherwise does nothing.
     */
    method GroupFiles(files: seq<FileWithUuid>) returns (handed: Option<seq<FileWithUuid>>)
      modifies this
      ensures var toGroup := FilesToGroup(files, old(selected));
        if |toGroup| > 1 then handed == Some(toGroup) && !isOpen && selected == map[]
        else handed.None? && isOpen == old(isOpen) && selected == old(selected)
    {
      var toGroup := FilesToGroup(files, selected);
      if |toGroup| > 1 {
        handed := Some(toGroup);
        isOpen := false;
        selected := map[];
      } else {
        handed := None;
      }
    }
  }

  /** The count button is disabled exactly when fewer than two flags are set. */
  predicate GroupButtonDisabled(selected: map<string, bool>) {
    SelectedCount(selected) < 2
  }

  /** A fresh dialog, or one just closed, counts nothing and keeps its button disabled. */
  lemma ClearedDialogDisabled(files: seq<FileWithUuid>)
    ensures SelectedCount(map[]) == 0 && GroupButtonDisabled(map[])
    ensures FilesToGroup(files, map[]) == []
  {
    FilterEmptyIffNone(files, IsChecked(map[]));
    assert CheckedNames(map[]) == {};
  }

  /** The handed-over files keep the order of the list and each appears once. */
  lemma HandedFilesAreSubsequence(files: seq<FileWithUuid>, selected: map<string, bool>)
    requires Distinct(files)
    ensures Distinct(FilesToGroup(files, selected))
    ensures FilesToGroup(files, selected) == Filter(files, IsChecked(selected))
    ensures Subsequence(FilesToGroup(files, selected), files)
  {
    FilterDistinct(files, IsChecked(selected));
    FilterIsSubsequence(files, IsChecked(selected));
  }
}
