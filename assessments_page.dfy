/**
 * The assessments overview: for each competency, the rounded mean of the
 * user's results on its job-title skills and the rounded mean of those
 * skills' targets.
 */
module AssessmentsPage {
  import opened Wrappers
  import opened Seqs

  /** A job-title skill: which skill it is and the level expected of the job title. */
  datatype JobTitleSkillRow = JobTitleSkillRow(id: string, skillId: string, target: int)

  /** One answer of the user's latest assessment, `Number(value)` already taken. */
  datatype AssessmentResult = AssessmentResult(id: string, value: int, jobTitleSkillId: string)

  /** A competency with the ids of its skills. */
  datatype Competency = Competency(id: string, skillIds: seq<string>)

  function Sum(xs: seq<int>): int
    decreases |xs|
  {
    if xs == [] then 0 else xs[0] + Sum(xs[1..])
  }

  /**
   * `Math.round(sum / n)` on integers: the nearest integer, halves rounded up.
   * The half-open bounds are exactly that rule.
   */
  function RoundedMean(sum: int, n: nat): (r: int)
    requires n > 0
    ensures n * (2 * r - 1) <= 2 * sum < n * (2 * r + 1)
  {
    var q := (2 * sum + n) / (2 * n);
    assert 2 * sum + n == 2 * n * q + (2 * sum + n) % (2 * n);
    q
  }

  /** Only one integer meets the rounding bounds. */
  lemma RoundedMeanUnique(sum: int, n: nat, r: int)
    requires n > 0
    requires n * (2 * r - 1) <= 2 * sum < n * (2 * r + 1)
    ensures r == RoundedMean(sum, n)
  {
    var q := RoundedMean(sum, n);
    if r < q {
      MulMono(n, 2 * r + 1, 2 * q - 1);
    } else if r > q {
      MulMono(n, 2 * q + 1, 2 * r - 1);
    }
  }

  lemma MulMono(a: int, b: int, c: int)
    requires 0 <= a && b <= c
    ensures a * b <= a * c
  {
    assert a * c - a * b == a * (c - b);
  }

  /** The displayed mean of a list: 0 for an empty list. */
  function RoundedAverage(xs: seq<int>): int {
    if |xs| == 0 then 0 else RoundedMean(Sum(xs), |xs|)
  }

  lemma {:induction false} SumBounds(xs: seq<int>, lo: int, hi: int)
    requires forall i :: 0 <= i < |xs| ==> lo <= xs[i] <= hi
    ensures |xs| * lo <= Sum(xs) <= |xs| * hi
    decreases |xs|
  {
    if xs != [] {
      SumBounds(xs[1..], lo, hi);
    }
  }

  /** A rounded mean lies between the least and the greatest value averaged. */
  lemma RoundedAverageBetween(xs: seq<int>, lo: int, hi: int)
    requires xs != []
    requires forall i :: 0 <= i < |xs| ==> lo <= xs[i] <= hi
    ensures lo <= RoundedAverage(xs) <= hi
  {
    var n := |xs|;
    var r := RoundedAverage(xs);
    SumBounds(xs, lo, hi);
    if r < lo {
      MulMono(n, 2 * r + 1, 2 * lo - 1);
    }
    if r > hi {
      MulMono(n, 2 * hi + 1, 2 * r - 1);
    }
  }

  /** `jobTitleSkills.filter(jts => competencySkills.includes(jts.skillId))` */
  function RelevantJobTitleSkills(c: Competency, jts: seq<JobTitleSkillRow>): (r: seq<JobTitleSkillRow>)
    ensures forall i :: 0 <= i < |r| ==> r[i] in jts && r[i].skillId in c.skillIds
    ensures forall j :: j in jts && j.skillId in c.skillIds ==> j in r
  {
    var r := Filter(jts, (j: JobTitleSkillRow) => j.skillId in c.skillIds);
    assert forall i :: 0 <= i < |r| ==> r[i].skillId in c.skillIds;
    r
  }

  predicate AnswersOneOf(relevant: seq<JobTitleSkillRow>, a: AssessmentResult) {
    exists i :: 0 <= i < |relevant| && relevant[i].id == a.jobTitleSkillId
  }

  /** The results whose job-title skill is one of the relevant ones. */
  function RelevantResults(c: Competency, jts: seq<JobTitleSkillRow>, results: seq<AssessmentResult>): (r: seq<AssessmentResult>)
    ensures forall i :: 0 <= i < |r| ==> r[i] in results && AnswersOneOf(RelevantJobTitleSkills(c, jts), r[i])
    ensures forall a :: a in results && AnswersOneOf(RelevantJobTitleSkills(c, jts), a) ==> a in r
  {
    var relevant := RelevantJobTitleSkills(c, jts);
    var r := Filter(results, (a: AssessmentResult) => AnswersOneOf(relevant, a));
    assert forall i :: 0 <= i < |r| ==> AnswersOneOf(relevant, r[i]);
    r
  }

  function ValueOf(a: AssessmentResult): int { a.value }
  function TargetOf(j: JobTitleSkillRow): int { j.target }

  /** One entry of `averages`. */
  function Average(c: Competency, jts: seq<JobTitleSkillRow>, results: seq<AssessmentResult>): int {
    RoundedAverage(Map(RelevantResults(c, jts, results), ValueOf))
  }

  /** One entry of `expected`: every relevant job-title skill counts once. */
  function Expected(c: Competency, jts: seq<JobTitleSkillRow>): int {
    RoundedAverage(Map(RelevantJobTitleSkills(c, jts), TargetOf))
  }

  /** `averages` and `expected` side by side with the competencies, index for index. */
  function Scores(cs: seq<Competency>, jts: seq<JobTitleSkillRow>, results: seq<AssessmentResult>): (r: seq<(int, int)>)
    ensures |r| == |cs|
    ensures forall i :: 0 <= i < |cs| ==> r[i] == (Average(cs[i], jts, results), Expected(cs[i], jts))
  {
    seq(|cs|, i requires 0 <= i < |cs| => (Average(cs[i], jts, results), Expected(cs[i], jts)))
  }

  /**
   * With no relevant result the average is 0; otherwise, with every result
   * between `lo` and `hi`, so is the average.
   */
  lemma AverageBounds(c: Competency, jts: seq<JobTitleSkillRow>, results: seq<AssessmentResult>, lo: int, hi: int)
    requires forall i :: 0 <= i < |results| ==> lo <= results[i].value <= hi
    ensures RelevantResults(c, jts, results) == [] ==> Average(c, jts, results) == 0
    ensures RelevantResults(c, jts, results) != [] ==> lo <= Average(c, jts, results) <= hi
  {
    var xs := Map(RelevantResults(c, jts, results), ValueOf);
    if xs != [] {
      RoundedAverageBetween(xs, lo, hi);
    }
  }

  /** The expected level lies between the least and the greatest relevant target, and is 0 without any. */
  lemma ExpectedBounds(c: Competency, jts: seq<JobTitleSkillRow>, lo: int, hi: int)
    requires forall i :: 0 <= i < |jts| ==> lo <= jts[i].target <= hi
    ensures RelevantJobTitleSkills(c, jts) == [] ==> Expected(c, jts) == 0
    ensures RelevantJobTitleSkills(c, jts) != [] ==> lo <= Expected(c, jts) <= hi
  {
    var xs := Map(RelevantJobTitleSkills(c, jts), TargetOf);
    if xs != [] {
      RoundedAverageBetween(xs, lo, hi);
    }
  }

  /** The stored assessment; either part may be missing. */
  datatype LatestAssessment = LatestAssessment(assessmentResults: Option<seq<AssessmentResult>>)

  /** The test in front of the empty state: no assessment, no results, or none. */
  predicate ShowsEmptyState(a: Option<LatestAssessment>) {
    a.None? || a.value.assessmentResults.None? || |a.value.assessmentResults.value| == 0
  }

  /** What the page renders, or that it throws before rendering. */
  datatype Overview = Crashes | EmptyState | ScoreGrid(scores: seq<(int, int)>)

  /**
   * The page computes `averages` before it tests for the empty state, and that
   * reads `assessment.assessmentResults.filter` once per competency: with at
   * least one competency, a missing assessment or a missing list of results
   * throws, and the empty state is reached only in the remaining cases.
   */
  function PageOverview(cs: seq<Competency>, jts: seq<JobTitleSkillRow>, a: Option<LatestAssessment>): (o: Overview)
    ensures o.Crashes? <==> cs != [] && (a.None? || a.value.assessmentResults.None?)
    ensures o.EmptyState? <==> ShowsEmptyState(a) && (cs == [] || (a.Some? && a.value.assessmentResults.Some?))
    ensures o.ScoreGrid? ==>
      a.Some? && a.value.assessmentResults.Some? && |a.value.assessmentResults.value| > 0 &&
      |o.scores| == |cs| &&
      forall i :: 0 <= i < |cs| ==>
        o.scores[i] == (Average(cs[i], jts, a.value.assessmentResults.value), Expected(cs[i], jts))
  {
    if cs != [] && (a.None? || a.value.assessmentResults.None?) then Crashes
    else if ShowsEmptyState(a) then EmptyState
    else ScoreGrid(Scores(cs, jts, a.value.assessmentResults.value))
  }
}
