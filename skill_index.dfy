/**
 * Flat addressing of the relevance and complexity vectors. A vector has one
 * block of `TotalSkills` cells per job title; inside a block the skills are
 * numbered group after group. `getSkillIndex` appears verbatim in both vector
 * forms and is modelled once here, together with the job-by-job writes both
 * forms perform.
 */
module SkillIndex {
  import opened ArticleConsts

  predicate ValidSkill(groupIndex: int, skillIndex: int) {
    0 <= groupIndex < |Skills| && 0 <= skillIndex < |Skills[groupIndex].skills|
  }

  /** Number of skills listed before group `g`. */
  function Offset(g: nat): nat
    requires g <= |Skills|
  {
    SizeSum(Skills[..g])
  }

  lemma OffsetStep(g: nat)
    requires g < |Skills|
    ensures Offset(g + 1) == Offset(g) + |Skills[g].skills|
  {
    assert Skills[..g + 1][..g] == Skills[..g];
  }

  lemma {:induction false} OffsetMonotone(g1: nat, g2: nat)
    requires g1 <= g2 <= |Skills|
    ensures Offset(g1) <= Offset(g2)
    decreases g2 - g1
  {
    if g1 < g2 {
      OffsetStep(g1);
      OffsetMonotone(g1 + 1, g2);
    }
  }

  /** `getSkillIndex(groupIndex, skillIndex)`: the loop adds up the sizes of the earlier groups. */
  method GetSkillIndex(groupIndex: nat, skillIndex: int) returns (index: int)
    requires groupIndex <= |Skills|
    ensures index == Offset(groupIndex) + skillIndex
  {
    index := 0;
    var i := 0;
    while i < groupIndex
      invariant 0 <= i <= groupIndex
      invariant index == Offset(i)
    {
      OffsetStep(i);
      index := index + |Skills[i].skills|;
      i := i + 1;
    }
    index := index + skillIndex;
  }

  /** Zero-based position of a skill among all skills; every skill lands inside one job block. */
  function FlatIndex(groupIndex: nat, skillIndex: nat): (k: nat)
    requires ValidSkill(groupIndex, skillIndex)
    ensures k < TotalSkills
  {
    OffsetStep(groupIndex);
    OffsetMonotone(groupIndex + 1, |Skills|);
    assert Skills[..|Skills|] == Skills;
    Offset(groupIndex) + skillIndex
  }

  /** Different skills never share a position. */
  lemma FlatIndexInjective(g1: nat, s1: nat, g2: nat, s2: nat)
    requires ValidSkill(g1, s1) && ValidSkill(g2, s2)
    requires (g1, s1) != (g2, s2)
    ensures FlatIndex(g1, s1) != FlatIndex(g2, s2)
  {
    if g1 < g2 {
      OffsetStep(g1);
      OffsetMonotone(g1 + 1, g2);
    } else if g2 < g1 {
      OffsetStep(g2);
      OffsetMonotone(g2 + 1, g1);
    }
  }

  /** Every position of a job block belongs to some skill. */
  lemma {:induction false} FlatIndexOnto(k: nat)
    requires k < TotalSkills
    ensures exists g: nat, s: nat :: ValidSkill(g, s) && FlatIndex(g, s) == k
  {
    assert Skills[..|Skills|] == Skills;
    var g := 0;
    while Offset(g + 1) <= k
      invariant 0 <= g < |Skills|
      invariant Offset(g) <= k
      decreases |Skills| - g
    {
      OffsetStep(g);
      if g + 1 == |Skills| {
        assert false;
      }
      g := g + 1;
    }
    OffsetStep(g);
    assert ValidSkill(g, k - Offset(g)) && FlatIndex(g, k - Offset(g)) == k;
  }

  /** Cell `k` of a vector belongs to skill `k % TotalSkills` of job `k / TotalSkills`. */
  predicate InJobs(k: int, index: int, jobs: nat) {
    TotalSkills == 19 && index <= k && (k - index) % 19 == 0 && (k - index) / 19 < jobs
  }

  /** The writes for jobs `0 .. jobs - 1` of one skill, in the order the form performs them. */
  function WriteJobs(v: seq<int>, index: nat, x: int, jobs: nat): (r: seq<int>)
    requires |v| == VectorLength && index < TotalSkills && jobs <= JobCount
    ensures |r| == |v|
  {
    if jobs == 0 then v
    else
      TableSizes();
      WriteJobs(v, index, x, jobs - 1)[index + (jobs - 1) * 19 := x]
  }

  lemma {:induction false} WriteJobsCells(v: seq<int>, index: nat, x: int, jobs: nat)
    requires |v| == VectorLength && index < TotalSkills && jobs <= JobCount
    ensures forall k :: 0 <= k < |v| ==>
      WriteJobs(v, index, x, jobs)[k] == if InJobs(k, index, jobs) then x else v[k]
  {
    TableSizes();
    if jobs > 0 {
      WriteJobsCells(v, index, x, jobs - 1);
      var c := index + (jobs - 1) * 19;
      forall k | 0 <= k < |v|
        ensures InJobs(k, index, jobs) <==> InJobs(k, index, jobs - 1) || k == c
      {
        if index <= k && (k - index) % 19 == 0 {
          assert k - index == 19 * ((k - index) / 19);
        }
      }
    }
  }

  /** Setting one skill for every job: `updated[index + j * totalSkills] = x` for j = 0 .. 6. */
  function WriteSkill(v: seq<int>, index: nat, x: int): (r: seq<int>)
    requires |v| == VectorLength && index < TotalSkills
    ensures |r| == |v|
  {
    WriteJobs(v, index, x, JobCount)
  }

  /**
   * Exactly the cells of that skill, in every job block, hold the new value;
   * all other cells are unchanged.
   */
  lemma WriteSkillCells(v: seq<int>, index: nat, x: int)
    requires |v| == VectorLength && index < TotalSkills
    ensures forall k :: 0 <= k < |v| ==>
      WriteSkill(v, index, x)[k] == if k % TotalSkills == index then x else v[k]
  {
    TableSizes();
    WriteJobsCells(v, index, x, JobCount);
    forall k | 0 <= k < |v|
      ensures InJobs(k, index, JobCount) <==> k % 19 == index
    {
      if k % 19 == index {
        assert k == 19 * (k / 19) + index;
        assert (k - index) / 19 == k / 19;
      }
      if InJobs(k, index, JobCount) {
        assert k == index + 19 * ((k - index) / 19);
      }
    }
  }

  /** Writing the skills `Offset(g) + 0 .. Offset(g) + count - 1` of group `g` one after the other. */
  function WriteGroup(v: seq<int>, g: nat, x: int, count: nat): (r: seq<int>)
    requires |v| == VectorLength && g < |Skills| && count <= |Skills[g].skills|
    ensures |r| == |v|
  {
    if count == 0 then v
    else
      WriteSkill(WriteGroup(v, g, x, count - 1), FlatIndex(g, count - 1), x)
  }

  /** After toggling group `g`, exactly the cells of its skills, in every job block, hold the new value. */
  lemma {:induction false} WriteGroupCells(v: seq<int>, g: nat, x: int, count: nat)
    requires |v| == VectorLength && g < |Skills| && count <= |Skills[g].skills|
    ensures forall k :: 0 <= k < |v| ==>
      WriteGroup(v, g, x, count)[k] ==
        if Offset(g) <= k % TotalSkills < Offset(g) + count then x else v[k]
  {
    if count > 0 {
      WriteGroupCells(v, g, x, count - 1);
      WriteSkillCells(WriteGroup(v, g, x, count - 1), FlatIndex(g, count - 1), x);
    }
  }

  /** A vector whose cells all lie in `lo .. hi`. */
  predicate Within(v: seq<int>, lo: int, hi: int) {
    forall k :: 0 <= k < |v| ==> lo <= v[k] <= hi
  }

  /** Writes of a value in range keep a vector in range. */
  lemma WriteSkillWithin(v: seq<int>, index: nat, x: int, lo: int, hi: int)
    requires |v| == VectorLength && index < TotalSkills
    requires Within(v, lo, hi) && lo <= x <= hi
    ensures Within(WriteSkill(v, index, x), lo, hi)
  {
    WriteSkillCells(v, index, x);
  }

  lemma WriteGroupWithin(v: seq<int>, g: nat, x: int, lo: int, hi: int)
    requires |v| == VectorLength && g < |Skills|
    requires Within(v, lo, hi) && lo <= x <= hi
    ensures Within(WriteGroup(v, g, x, |Skills[g].skills|), lo, hi)
  {
    WriteGroupCells(v, g, x, |Skills[g].skills|);
  }
}
