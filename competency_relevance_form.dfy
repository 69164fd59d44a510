/**
 * The competency relevance form of one file or group: a 133-cell vector of
 * 0/1 flags, one block of 19 skills per job title. Ticking a skill sets its
 * cell in every job block; the group checkbox sets all the group's skills.
 */
module CompetencyRelevanceForm {
  import opened ArticleConsts
  import opened SkillIndex

  /**
   * `updated[index + j * totalSkills] = x` for every job j, in place.
   * Both vector forms perform this loop.
   */
  method WriteSkillInPlace(a: array<int>, index: nat, x: int)
    requires a.Length == VectorLength && index < TotalSkills
    modifies a
    ensures a[..] == WriteSkill(old(a[..]), index, x)
  {
    TableSizes();
    var j := 0;
    while j < JobCount
      invariant 0 <= j <= JobCount
      invariant a[..] == WriteJobs(old(a[..]), index, x, j)
    {
      a[index + j * TotalSkills] := x;
      j := j + 1;
    }
  }

  /** The skill's checkbox shows as ticked when its job-0 cell is positive. */
  predicate SkillChecked(v: seq<int>, groupIndex: nat, skillIndex: nat)
    requires ValidSkill(groupIndex, skillIndex) && |v| == VectorLength
  {
    TableSizes();
    v[FlatIndex(groupIndex, skillIndex)] > 0
  }

  /** The group checkbox is ticked when no skill of the group has a zero job-0 cell. */
  predicate AllGroupSkillsSelected(v: seq<int>, groupIndex: nat)
    requires groupIndex < |Skills| && |v| == VectorLength
  {
    TableSizes();
    forall i :: 0 <= i < |Skills[groupIndex].skills| ==> v[FlatIndex(groupIndex, i)] != 0
  }

  /** Ticking or unticking a skill shows that skill with the new state. */
  lemma SkillChangeShows(v: seq<int>, groupIndex: nat, skillIndex: nat, checked: bool)
    requires ValidSkill(groupIndex, skillIndex) && |v| == VectorLength
    ensures SkillChecked(WriteSkill(v, FlatIndex(groupIndex, skillIndex), if checked then 1 else 0),
                   groupIndex, skillIndex) == checked
  {
    WriteSkillCells(v, FlatIndex(groupIndex, skillIndex), if checked then 1 else 0);
    TableSizes();
  }

  /** Ticking a group ticks its checkbox; unticking a group unticks it. */
  lemma GroupToggleShows(v: seq<int>, groupIndex: nat, checked: bool)
    requires groupIndex < |Skills| && |v| == VectorLength
    ensures AllGroupSkillsSelected(
      WriteGroup(v, groupIndex, if checked then 1 else 0, |Skills[groupIndex].skills|), groupIndex)
      == checked
  {
    var x := if checked then 1 else 0;
    GroupToggleSetsGroup(v, groupIndex, x);
    GroupsNonEmpty();
    TableSizes();
    if !checked {
      assert WriteGroup(v, groupIndex, x, |Skills[groupIndex].skills|)[FlatIndex(groupIndex, 0)] == 0;
    }
  }

  lemma GroupToggleSetsGroup(v: seq<int>, groupIndex: nat, x: int)
    requires groupIndex < |Skills| && |v| == VectorLength
    ensures forall i :: 0 <= i < |Skills[groupIndex].skills| ==>
      WriteGroup(v, groupIndex, x, |Skills[groupIndex].skills|)[FlatIndex(groupIndex, i)] == x
  {
    var n := |Skills[groupIndex].skills|;
    WriteGroupCells(v, groupIndex, x, n);
    TableSizes();
    forall i | 0 <= i < n
      ensures WriteGroup(v, groupIndex, x, n)[FlatIndex(groupIndex, i)] == x
    {
      var k := FlatIndex(groupIndex, i);
      assert k % 19 == k;
    }
  }

  /** Group toggles leave the other groups' cells alone. */
  lemma GroupToggleKeepsOtherGroups(v: seq<int>, groupIndex: nat, x: int, other: nat, skillIndex: nat)
    requires groupIndex < |Skills| && |v| == VectorLength
    requires ValidSkill(other, skillIndex) && other != groupIndex
    ensures WriteGroup(v, groupIndex, x, |Skills[groupIndex].skills|)[FlatIndex(other, skillIndex)]
        == v[FlatIndex(other, skillIndex)]
  {
    TableSizes();
    WriteGroupCells(v, groupIndex, x, |Skills[groupIndex].skills|);
    var k := FlatIndex(other, skillIndex);
    assert k % 19 == k;
    OffsetStep(groupIndex);
    OffsetStep(other);
    if other < groupIndex {
      OffsetMonotone(other + 1, groupIndex);
    } else {
      OffsetMonotone(groupIndex + 1, other);
    }
  }

  class RelevanceForm {
    /** The file name or group id the vector is reported under. */
    const fileName: string
    const values: array<int>

    predicate Valid()
      reads this, values
    {
      values.Length == VectorLength && Within(values[..], 0, 1)
    }

    /** `Array(totalSkills * jobCount).fill(0)` */
    constructor (fileName: string)
      ensures this.fileName == fileName && Valid() && fresh(values)
      ensures forall k :: 0 <= k < values.Length ==> values[k] == 0
    {
      TableSizes();
      this.fileName := fileName;
      values := new int[VectorLength](_ => 0);
    }

    /** `handleSkillChange(groupIndex, skillIndex, checked)` */
    method HandleSkillChange(groupIndex: nat, skillIndex: nat, checked: bool)
      requires Valid() && ValidSkill(groupIndex, skillIndex)
      modifies values
      ensures Valid()
      ensures values[..] == WriteSkill(old(values[..]), FlatIndex(groupIndex, skillIndex),
                                       if checked then 1 else 0)
    {
      var index := GetSkillIndex(groupIndex, skillIndex);
      assert index == FlatIndex(groupIndex, skillIndex);
      WriteSkillInPlace(values, index, if checked then 1 else 0);
      WriteSkillWithin(old(values[..]), index, if checked then 1 else 0, 0, 1);
    }

    /** `toggleGroupSkills(groupIndex, checked)` */
    method ToggleGroupSkills(groupIndex: nat, checked: bool)
      requires Valid() && groupIndex < |Skills|
      modifies values
      ensures Valid()
      ensures values[..] == WriteGroup(old(values[..]), groupIndex, if checked then 1 else 0,
                                       |Skills[groupIndex].skills|)
    {
      var x := if checked then 1 else 0;
      var i := 0;
      while i < |Skills[groupIndex].skills|
        invariant 0 <= i <= |Skills[groupIndex].skills|
        invariant values.Length == VectorLength
        invariant values[..] == WriteGroup(old(values[..]), groupIndex, x, i)
      {
        var index := GetSkillIndex(groupIndex, i);
        assert index == FlatIndex(groupIndex, i);
        WriteSkillInPlace(values, index, x);
        i := i + 1;
      }
      WriteGroupWithin(old(values[..]), groupIndex, x, 0, 1);
    }

    /** `areAllGroupSkillsSelected(groupIndex)`: stops at the first skill whose job-0 cell is 0. */
    method AreAllGroupSkillsSelected(groupIndex: nat) returns (all: bool)
      requires Valid() && groupIndex < |Skills|
      ensures all == AllGroupSkillsSelected(values[..], groupIndex)
    {
      TableSizes();
      var i := 0;
      while i < |Skills[groupIndex].skills|
        invariant 0 <= i <= |Skills[groupIndex].skills|
        invariant forall p :: 0 <= p < i ==> values[FlatIndex(groupIndex, p)] != 0
      {
        var index := GetSkillIndex(groupIndex, i);
        assert index == FlatIndex(groupIndex, i);
        if values[index] == 0 {
          return false;
        }
        i := i + 1;
      }
      return true;
    }
  }
}
