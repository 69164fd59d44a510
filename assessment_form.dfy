/**
 * The assessment questionnaire: one radio group per question, a name of at
 * least ten characters, and a submission that pairs every question's
 * job-title skill with the chosen level, in question order.
 */
module AssessmentForm {
  import opened Wrappers

  /** A question of the fixed questionnaire; only the skill it asks about matters here. */
  datatype Question = Question(jobTitleSkillId: string)

  /** An answer slot: still `""`, or the radio value picked. */
  datatype Slot = Unanswered | Picked(level: int)

  /** One entry of `assessmentResults` as posted. */
  datatype Entry = Entry(jobTitleSkillId: string, value: int)

  /** The posted body: `{ name, assessmentResults }`. */
  datatype Submission = Submission(name: string, assessmentResults: seq<Entry>)

  const MinNameLength: nat := 10
  const LowestLevel: int := 1
  const HighestLevel: int := 4
  const ProfilePath: string := "/my/profile"

  /** Every slot is empty or holds one of the four radio values. */
  predicate SlotsWellFormed(slots: seq<Slot>) {
    forall i :: 0 <= i < |slots| ==> slots[i].Unanswered? || LowestLevel <= slots[i].level <= HighestLevel
  }

  predicate AllAnswered(slots: seq<Slot>) {
    forall i :: 0 <= i < |slots| ==> slots[i].Picked?
  }

  /** The initial values: one empty slot per question. */
  function InitialSlots(questions: seq<Question>): (r: seq<Slot>)
    ensures |r| == |questions|
    ensures forall i :: 0 <= i < |r| ==> r[i].Unanswered?
    ensures SlotsWellFormed(r)
  {
    seq(|questions|, _ => Unanswered)
  }

  /** The schema: a name of at least ten characters and no empty answer. */
  predicate FormValid(name: string, slots: seq<Slot>) {
    |name| >= MinNameLength && AllAnswered(slots)
  }

  /** A fresh form is never valid while there is a question to answer. */
  lemma InitialFormInvalid(name: string, questions: seq<Question>)
    requires questions != []
    ensures !FormValid(name, InitialSlots(questions))
  {
    assert InitialSlots(questions)[0].Unanswered?;
  }

  /** `Number(value)`: the picked level, and 0 for the empty string. */
  function NumberOf(s: Slot): (n: int)
    ensures s.Picked? ==> n == s.level
    ensures s.Unanswered? ==> n == 0
  {
    match s
    case Unanswered => 0
    case Picked(level) => level
  }

  /** What one pass of the push loop appends: the question's skill and its answer, question by question. */
  function Answers(questions: seq<Question>, slots: seq<Slot>): (r: seq<Entry>)
    requires |slots| == |questions|
  {
    seq(|questions|, i requires 0 <= i < |questions| => Entry(questions[i].jobTitleSkillId, NumberOf(slots[i])))
  }

  /**
   * The answers follow the questions one for one and in order, and on a valid
   * form every value is one of the four levels.
   */
  lemma AnswersFollowQuestions(questions: seq<Question>, slots: seq<Slot>)
    requires |slots| == |questions| && SlotsWellFormed(slots)
    ensures |Answers(questions, slots)| == |questions|
    ensures forall i :: 0 <= i < |questions| ==> Answers(questions, slots)[i].jobTitleSkillId == questions[i].jobTitleSkillId
    ensures AllAnswered(slots) ==> forall i :: 0 <= i < |questions| ==>
      LowestLevel <= Answers(questions, slots)[i].value <= HighestLevel
  {
  }

  /** The body as the code builds it: whatever `quiz` already held, then this submission's answers. */
  function BodyAsWritten(previous: seq<Entry>, name: string, questions: seq<Question>, slots: seq<Slot>): (b: Submission)
    requires |slots| == |questions|
    ensures b.name == name
    ensures |b.assessmentResults| == |previous| + |questions|
    ensures b.assessmentResults[..|previous|] == previous
  {
    Submission(name, previous + Answers(questions, slots))
  }

  /** The intended body: exactly this submission's answers. */
  function Body(name: string, questions: seq<Question>, slots: seq<Slot>): (b: Submission)
    requires |slots| == |questions|
    ensures b == BodyAsWritten([], name, questions, slots)
    ensures |b.assessmentResults| == |questions|
  {
    assert [] + Answers(questions, slots) == Answers(questions, slots);
    Submission(name, Answers(questions, slots))
  }

  /**
   * A retry after a failed post sends every answer twice: the second body
   * repeats the first one's entries before this submission's.
   */
  lemma RetryDuplicatesAsWritten(name: string, questions: seq<Question>, slots: seq<Slot>)
    requires |slots| == |questions| && questions != []
    ensures var first := BodyAsWritten([], name, questions, slots);
      var second := BodyAsWritten(first.assessmentResults, name, questions, slots);
      |second.assessmentResults| == 2 * |questions| &&
      second.assessmentResults == Answers(questions, slots) + Answers(questions, slots) &&
      second != Body(name, questions, slots)
  {
    var first := BodyAsWritten([], name, questions, slots);
    assert first.assessmentResults == Answers(questions, slots);
  }

  /** The questionnaire's state: the Formik values, the render-scoped `quiz` list and where the router went. */
  class Form {
    const questions: seq<Question>
    var name: string
    var slots: seq<Slot>
    var quiz: seq<Entry>
    var submitting: bool
    var pushed: Option<string>

    predicate Valid()
      reads this
    {
      |slots| == |questions| && SlotsWellFormed(slots)
    }

    constructor (questions: seq<Question>)
      ensures this.questions == questions
      ensures name == "" && slots == InitialSlots(questions) && quiz == []
      ensures !submitting && pushed.None?
      ensures Valid()
    {
      this.questions := questions;
      name := "";
      slots := InitialSlots(questions);
      quiz := [];
      submitting := false;
      pushed := None;
    }

    method SetName(n: string)
      modifies this
      ensures name == n
      ensures slots == old(slots) && quiz == old(quiz) && submitting == old(submitting) && pushed == old(pushed)
    {
      name := n;
    }

    /** Clicking radio `level` of question `i`. */
    method SelectAnswer(i: nat, level: int)
      requires Valid() && i < |slots|
      requires LowestLevel <= level <= HighestLevel
      modifies this
      ensures Valid()
      ensures slots == old(slots)[i := Picked(level)]
      ensures name == old(name) && quiz == old(quiz) && submitting == old(submitting) && pushed == old(pushed)
    {
      slots := slots[i := Picked(level)];
    }

    /** The `map` over the questions that pushes one entry per question onto `quiz`. */
    method PushAnswers()
      requires Valid()
      modifies this
      ensures Valid()
      ensures quiz == old(quiz) + Answers(questions, slots)
      ensures name == old(name) && slots == old(slots) && submitting == old(submitting) && pushed == old(pushed)
    {
      var q0 := quiz;
      var k := 0;
      while k < |questions|
        invariant 0 <= k <= |questions|
        invariant name == old(name) && slots == old(slots) && submitting == old(submitting) && pushed == old(pushed)
        invariant |quiz| == |q0| + k && quiz[..|q0|] == q0
        invariant forall j :: 0 <= j < k ==> quiz[|q0| + j] == Entry(questions[j].jobTitleSkillId, NumberOf(slots[j]))
      {
        quiz := quiz + [Entry(questions[k].jobTitleSkillId, NumberOf(slots[k]))];
        k := k + 1;
      }
      assert quiz == q0 + Answers(questions, slots);
    }

    /**
     * `onSubmit` as the code has it: Formik calls it on a valid form; the
     * answers are pushed onto the `quiz` left by any earlier attempt, that
     * list is posted, and only an OK response leads to the profile.
     */
    method OnSubmitAsWritten(responseOk: bool) returns (body: Submission)
      requires Valid() && FormValid(name, slots)
      modifies this
      ensures Valid()
      ensures body == BodyAsWritten(old(quiz), name, questions, slots)
      ensures quiz == body.assessmentResults
      ensures pushed == (if responseOk then Some(ProfilePath) else old(pushed))
      ensures !submitting && name == old(name) && slots == old(slots)
    {
      submitting := true;
      PushAnswers();
      body := Submission(name, quiz);
      if responseOk {
        pushed := Some(ProfilePath);
      }
      submitting := false;
    }

    /**
     * The intended `onSubmit`: a fresh list per attempt, so the body holds one
     * entry per question, in order, each a level between 1 and 4.
     */
    method OnSubmit(responseOk: bool) returns (body: Submission)
      requires Valid() && FormValid(name, slots)
      modifies this
      ensures Valid()
      ensures body == Body(name, questions, slots)
      ensures |body.assessmentResults| == |questions|
      ensures forall i :: 0 <= i < |questions| ==>
        body.assessmentResults[i].jobTitleSkillId == questions[i].jobTitleSkillId &&
        LowestLevel <= body.assessmentResults[i].value <= HighestLevel
      ensures pushed == (if responseOk then Some(ProfilePath) else old(pushed))
      ensures !submitting && name == old(name) && slots == old(slots)
    {
      submitting := true;
      quiz := [];
      PushAnswers();
      assert quiz == Answers(questions, slots);
      AnswersFollowQuestions(questions, slots);
      body := Submission(name, quiz);
      if responseOk {
        pushed := Some(ProfilePath);
      }
      submitting := false;
    }
  }
}
