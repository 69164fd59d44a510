/**
 * The competency dialog: two nested loops collect the user's results and the
 * matching targets, one entry per (job-title skill, competency skill, result)
 * triple, and show their rounded means.
 */
module CompetencyModal {
  import opened Seqs
  import opened AssessmentsPage

  /** A job-title skill matched with one of its results. */
  datatype Match = Match(jts: JobTitleSkillRow, result: AssessmentResult)

  /** The results of one job-title skill, in result order. */
  function ResultMatches(j: JobTitleSkillRow, results: seq<AssessmentResult>): seq<Match>
    decreases |results|
  {
    if results == [] then []
    else
      var n := |results| - 1;
      ResultMatches(j, results[..n]) +
      (if results[n].jobTitleSkillId == j.id then [Match(j, results[n])] else [])
  }

  /** One job-title skill against every competency skill: its results once per skill id it equals. */
  function SkillMatches(j: JobTitleSkillRow, skillIds: seq<string>, results: seq<AssessmentResult>): seq<Match>
    decreases |skillIds|
  {
    if skillIds == [] then []
    else
      var n := |skillIds| - 1;
      SkillMatches(j, skillIds[..n], results) +
      (if j.skillId == skillIds[n] then ResultMatches(j, results) else [])
  }

  /** Every triple the loops visit, in loop order. */
  function Matches(jts: seq<JobTitleSkillRow>, skillIds: seq<string>, results: seq<AssessmentResult>): seq<Match>
    decreases |jts|
  {
    if jts == [] then []
    else
      var n := |jts| - 1;
      Matches(jts[..n], skillIds, results) + SkillMatches(jts[n], skillIds, results)
  }

  lemma {:induction false} InResultMatches(j: JobTitleSkillRow, results: seq<AssessmentResult>, m: Match)
    ensures m in ResultMatches(j, results) <==> m.jts == j && m.result in results && m.result.jobTitleSkillId == j.id
    decreases |results|
  {
    if results != [] {
      var n := |results| - 1;
      InResultMatches(j, results[..n], m);
      assert results == results[..n] + [results[n]];
    }
  }

  lemma {:induction false} InSkillMatches(j: JobTitleSkillRow, skillIds: seq<string>, results: seq<AssessmentResult>, m: Match)
    ensures m in SkillMatches(j, skillIds, results) <==> j.skillId in skillIds && m in ResultMatches(j, results)
    decreases |skillIds|
  {
    if skillIds != [] {
      var n := |skillIds| - 1;
      InSkillMatches(j, skillIds[..n], results, m);
      assert skillIds == skillIds[..n] + [skillIds[n]];
    }
  }

  /**
   * A pair is collected exactly when the job-title skill is listed, its skill
   * belongs to the competency and the result answers it.
   */
  lemma {:induction false} InMatches(jts: seq<JobTitleSkillRow>, skillIds: seq<string>, results: seq<AssessmentResult>, m: Match)
    ensures m in Matches(jts, skillIds, results) <==>
      m.jts in jts && m.jts.skillId in skillIds && m.result in results && m.result.jobTitleSkillId == m.jts.id
    decreases |jts|
  {
    if jts != [] {
      var n := |jts| - 1;
      InMatches(jts[..n], skillIds, results, m);
      InSkillMatches(jts[n], skillIds, results, m);
      InResultMatches(jts[n], results, m);
      assert jts == jts[..n] + [jts[n]];
    }
  }

  function ResultValue(m: Match): int { m.result.value }
  function Target(m: Match): int { m.jts.target }

  lemma MapAppend<T, U>(a: seq<T>, b: seq<T>, f: T -> U)
    ensures Map(a + b, f) == Map(a, f) + Map(b, f)
  {
  }

  /** What a loop nest pushes for one job-title skill and one run of results. */
  function ResultPicks(j: JobTitleSkillRow, results: seq<AssessmentResult>, pick: Match -> int): seq<int>
    decreases |results|
  {
    if results == [] then []
    else
      var n := |results| - 1;
      ResultPicks(j, results[..n], pick) +
      (if results[n].jobTitleSkillId == j.id then [pick(Match(j, results[n]))] else [])
  }

  function SkillPicks(j: JobTitleSkillRow, skillIds: seq<string>, results: seq<AssessmentResult>, pick: Match -> int): seq<int>
    decreases |skillIds|
  {
    if skillIds == [] then []
    else
      var n := |skillIds| - 1;
      SkillPicks(j, skillIds[..n], results, pick) +
      (if j.skillId == skillIds[n] then ResultPicks(j, results, pick) else [])
  }

  function Picks(jts: seq<JobTitleSkillRow>, skillIds: seq<string>, results: seq<AssessmentResult>, pick: Match -> int): seq<int>
    decreases |jts|
  {
    if jts == [] then []
    else
      var n := |jts| - 1;
      Picks(jts[..n], skillIds, results, pick) + SkillPicks(jts[n], skillIds, results, pick)
  }

  lemma {:induction false} ResultPicksAreMap(j: JobTitleSkillRow, results: seq<AssessmentResult>, pick: Match -> int)
    ensures ResultPicks(j, results, pick) == Map(ResultMatches(j, results), pick)
    decreases |results|
  {
    if results != [] {
      var n := |results| - 1;
      ResultPicksAreMap(j, results[..n], pick);
      MapAppend(ResultMatches(j, results[..n]),
        if results[n].jobTitleSkillId == j.id then [Match(j, results[n])] else [], pick);
    }
  }

  lemma {:induction false} SkillPicksAreMap(j: JobTitleSkillRow, skillIds: seq<string>, results: seq<AssessmentResult>, pick: Match -> int)
    ensures SkillPicks(j, skillIds, results, pick) == Map(SkillMatches(j, skillIds, results), pick)
    decreases |skillIds|
  {
    if skillIds != [] {
      var n := |skillIds| - 1;
      SkillPicksAreMap(j, skillIds[..n], results, pick);
      ResultPicksAreMap(j, results, pick);
      MapAppend(SkillMatches(j, skillIds[..n], results),
        if j.skillId == skillIds[n] then ResultMatches(j, results) else [], pick);
    }
  }

  /** What a loop nest pushes is `pick` of each visited triple, in visiting order. */
  lemma {:induction false} PicksAreMap(jts: seq<JobTitleSkillRow>, skillIds: seq<string>, results: seq<AssessmentResult>, pick: Match -> int)
    ensures Picks(jts, skillIds, results, pick) == Map(Matches(jts, skillIds, results), pick)
    decreases |jts|
  {
    if jts != [] {
      var n := |jts| - 1;
      PicksAreMap(jts[..n], skillIds, results, pick);
      SkillPicksAreMap(jts[n], skillIds, results, pick);
      MapAppend(Matches(jts[..n], skillIds, results), SkillMatches(jts[n], skillIds, results), pick);
    }
  }

  /** The innermost loop: the results answering job-title skill `j`. */
  method PushResults(out0: seq<int>, j: JobTitleSkillRow, results: seq<AssessmentResult>, pick: Match -> int)
    returns (out: seq<int>)
    ensures out == out0 + ResultPicks(j, results, pick)
  {
    out := out0;
    var k := 0;
    while k < |results|
      invariant 0 <= k <= |results|
      invariant out == out0 + ResultPicks(j, results[..k], pick)
    {
      assert results[..k + 1][..k] == results[..k];
      if results[k].jobTitleSkillId == j.id {
        out := out + [pick(Match(j, results[k]))];
      }
      k := k + 1;
    }
    assert results[..|results|] == results;
  }

  /** The middle loop: every competency skill against job-title skill `j`; the inner loop runs only on a match. */
  method PushSkills(out0: seq<int>, j: JobTitleSkillRow, skillIds: seq<string>, results: seq<AssessmentResult>, pick: Match -> int)
    returns (out: seq<int>)
    ensures out == out0 + SkillPicks(j, skillIds, results, pick)
  {
    out := out0;
    var s := 0;
    while s < |skillIds|
      invariant 0 <= s <= |skillIds|
      invariant out == out0 + SkillPicks(j, skillIds[..s], results, pick)
    {
      assert skillIds[..s + 1][..s] == skillIds[..s];
      if j.skillId == skillIds[s] {
        out := PushResults(out, j, results, pick);
      }
      s := s + 1;
    }
    assert skillIds[..|skillIds|] == skillIds;
  }

  /**
   * One of the two loop nests: visits every (job-title skill, competency
   * skill, result) triple with matching ids and pushes `pick` of it.
   */
  method Collect(jts: seq<JobTitleSkillRow>, skillIds: seq<string>, results: seq<AssessmentResult>, pick: Match -> int)
    returns (out: seq<int>)
    ensures out == Map(Matches(jts, skillIds, results), pick)
  {
    out := [];
    var i := 0;
    while i < |jts|
      invariant 0 <= i <= |jts|
      invariant out == Picks(jts[..i], skillIds, results, pick)
    {
      assert jts[..i + 1][..i] == jts[..i];
      out := PushSkills(out, jts[i], skillIds, results, pick);
      i := i + 1;
    }
    assert jts[..|jts|] == jts;
    PicksAreMap(jts, skillIds, results, pick);
  }

  /** The two arrays and the two scores the dialog shows. */
  method CompetencyScores(jts: seq<JobTitleSkillRow>, skillIds: seq<string>, results: seq<AssessmentResult>)
    returns (values: seq<int>, targets: seq<int>, overall: int, target: int)
    ensures |values| == |targets| == |Matches(jts, skillIds, results)|
    ensures forall k :: 0 <= k < |values| ==>
      values[k] == Matches(jts, skillIds, results)[k].result.value &&
      targets[k] == Matches(jts, skillIds, results)[k].jts.target
    ensures overall == RoundedAverage(values) && target == RoundedAverage(targets)
  {
    values := Collect(jts, skillIds, results, ResultValue);
    targets := Collect(jts, skillIds, results, Target);
    overall := if |values| > 0 then RoundedMean(Sum(values), |values|) else 0;
    target := if |targets| > 0 then RoundedMean(Sum(targets), |targets|) else 0;
  }

  /**
   * Unlike the overview, the dialog weights a job-title skill's target by its
   * number of results: one skill with target 4 and two results, another with
   * target 1 and none, give 4 here and 3 there.
   */
  lemma TargetWeightedByResults(a: JobTitleSkillRow, b: JobTitleSkillRow, r1: AssessmentResult, r2: AssessmentResult, c: Competency)
    requires a.id != b.id && a.target == 4 && b.target == 1
    requires c.skillIds == [a.skillId] && b.skillId == a.skillId
    requires r1.jobTitleSkillId == a.id && r2.jobTitleSkillId == a.id
    ensures Map(Matches([a, b], c.skillIds, [r1, r2]), Target) == [4, 4]
    ensures Expected(c, [a, b]) == 3
  {
    var rs := [r1, r2];
    assert rs[..1] == [r1] && [r1][..0] == [];
    assert ResultMatches(a, [r1]) == [Match(a, r1)];
    assert ResultMatches(a, rs) == ResultMatches(a, [r1]) + [Match(a, r2)];
    assert ResultMatches(b, rs) == [] by {
      assert ResultMatches(b, [r1]) == [];
    }
    assert SkillMatches(a, c.skillIds, rs) == ResultMatches(a, rs) by {
      assert c.skillIds[..0] == [];
    }
    assert SkillMatches(b, c.skillIds, rs) == [] by {
      assert c.skillIds[..0] == [];
    }
    assert [a, b][..1] == [a] && [a][..0] == [];
    assert Matches([a], c.skillIds, rs) == [Match(a, r1), Match(a, r2)];
    assert Matches([a, b], c.skillIds, rs) == Matches([a], c.skillIds, rs) + SkillMatches(b, c.skillIds, rs);
    var p := (j: JobTitleSkillRow) => j.skillId in c.skillIds;
    assert Filter([a, b], p) == [a, b] by {
      FilterKeepsAll([a, b], p);
    }
    assert RelevantJobTitleSkills(c, [a, b]) == [a, b];
    assert Map([a, b], TargetOf) == [4, 1];
    assert Sum([4, 1]) == 5;
    RoundedMeanUnique(5, 2, 3);
  }
}
