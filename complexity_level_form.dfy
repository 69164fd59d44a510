/**
 * The complexity form of one file or group: a 133-cell vector that starts at
 * 1 everywhere and whose slider for a skill writes that skill's cell in every
 * job block. Only the skills that are relevant in the relevance vector are shown.
 */
module ComplexityLevelForm {
  import opened ArticleConsts
  import opened SkillIndex
  import CompetencyRelevanceForm

  /** Slider bounds: `min={1} max={4} step={1}`. */
  const MinComplexity: int := 1
  const MaxComplexity: int := 4

  /** A skill is hidden only when its relevance cell is exactly 0; a missing cell does not hide it. */
  predicate SkillShown(selectedSkills: seq<int>, groupIndex: nat, skillIndex: nat)
    requires ValidSkill(groupIndex, skillIndex)
  {
    var index := FlatIndex(groupIndex, skillIndex);
    !(index < |selectedSkills| && selectedSkills[index] == 0)
  }

  /** A group is shown when some skill of it has a positive relevance cell. */
  predicate GroupShown(selectedSkills: seq<int>, groupIndex: nat)
    requires groupIndex < |Skills|
  {
    exists i :: 0 <= i < |Skills[groupIndex].skills| &&
      FlatIndex(groupIndex, i) < |selectedSkills| && selectedSkills[FlatIndex(groupIndex, i)] > 0
  }

  /** `complexityValues[index] || 1`: a missing or zero cell displays as 1. */
  function DisplayedValue(values: seq<int>, index: nat): (d: int)
    ensures index < |values| && values[index] != 0 ==> d == values[index]
    ensures d != 0
  {
    if index < |values| && values[index] != 0 then values[index] else 1
  }

  /**
   * For a 0/1 relevance vector of full length, a skill is on screen exactly
   * when it was ticked in the relevance form.
   */
  lemma ShownIffTicked(selectedSkills: seq<int>, groupIndex: nat, skillIndex: nat)
    requires ValidSkill(groupIndex, skillIndex)
    requires |selectedSkills| == VectorLength && Within(selectedSkills, 0, 1)
    ensures (GroupShown(selectedSkills, groupIndex) && SkillShown(selectedSkills, groupIndex, skillIndex))
            <==> CompetencyRelevanceForm.SkillChecked(selectedSkills, groupIndex, skillIndex)
  {
    TableSizes();
    var index := FlatIndex(groupIndex, skillIndex);
    if selectedSkills[index] > 0 {
      assert FlatIndex(groupIndex, skillIndex) < |selectedSkills|;
    }
  }

  /** With a relevance vector shorter than the table, a group can show a skill that was never ticked. */
  lemma ShortVectorShowsUnticked()
    ensures var selected := [0, 0, 0, 0, 0, 1];
      GroupShown(selected, 0) && SkillShown(selected, 0, 5) && SkillShown(selected, 1, 0)
  {
    TableSizes();
    var selected := [0, 0, 0, 0, 0, 1];
    assert Offset(0) == 0 by { assert Skills[..0] == []; }
    OffsetStep(0);
    assert FlatIndex(0, 5) == 5;
    assert FlatIndex(1, 0) == 6;
  }

  /** The value shown for a slider that was never moved is 1. */
  lemma DisplayedInitialValue(index: nat)
    requires index < VectorLength
    ensures DisplayedValue(seq(VectorLength, _ => 1), index) == 1
  {
  }

  class ComplexityForm {
    /** The file name or group id the vector is reported under. */
    const fileName: string
    const values: array<int>

    predicate Valid()
      reads this, values
    {
      values.Length == VectorLength
    }

    /** `Array(totalSkills * jobCount).fill(1)` */
    constructor (fileName: string)
      ensures this.fileName == fileName && Valid() && fresh(values)
      ensures Within(values[..], MinComplexity, MaxComplexity)
      ensures forall k :: 0 <= k < values.Length ==> values[k] == 1
    {
      TableSizes();
      this.fileName := fileName;
      values := new int[VectorLength](_ => 1);
    }

    /** `handleComplexityChange(groupIndex, skillIndex, value)`: the slider's value, unchecked. */
    method HandleComplexityChange(groupIndex: nat, skillIndex: nat, value: int)
      requires Valid() && ValidSkill(groupIndex, skillIndex)
      modifies values
      ensures Valid()
      ensures values[..] == WriteSkill(old(values[..]), FlatIndex(groupIndex, skillIndex), value)
      ensures old(Within(values[..], MinComplexity, MaxComplexity)) && MinComplexity <= value <= MaxComplexity
              ==> Within(values[..], MinComplexity, MaxComplexity)
    {
      var index := GetSkillIndex(groupIndex, skillIndex);
      assert index == FlatIndex(groupIndex, skillIndex);
      CompetencyRelevanceForm.WriteSkillInPlace(values, index, value);
      if Within(old(values[..]), MinComplexity, MaxComplexity) && MinComplexity <= value <= MaxComplexity {
        WriteSkillWithin(old(values[..]), index, value, MinComplexity, MaxComplexity);
      }
    }
  }
}
