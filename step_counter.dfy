/** The row of numbered circles above the wizard. */
module StepCounter {
  import opened Strings

  /** Width in pixels of each step container. */
  const StepWidth: int := 100

  datatype StepState = Completed | Current | Future

  /** `index < currentStep`, `index === currentStep`, `index > currentStep`: exactly one holds. */
  function Classify(index: int, currentStep: int): (r: StepState)
    ensures r == Completed <==> index < currentStep
    ensures r == Current <==> index == currentStep
    ensures r == Future <==> index > currentStep
  {
    if index < currentStep then Completed
    else if index == currentStep then Current
    else Future
  }

  /** The number of the first `n` steps drawn as completed. */
  function CompletedCount(n: nat, currentStep: int): (c: nat)
    ensures c <= n
  {
    if n == 0 then 0
    else CompletedCount(n - 1, currentStep) + (if Classify(n - 1, currentStep) == Completed then 1 else 0)
  }

  /** For a non-negative current step, `min(currentStep, steps.length)` steps are completed. */
  lemma {:induction false} CompletedCountIsMin(n: nat, currentStep: int)
    requires currentStep >= 0
    ensures CompletedCount(n, currentStep) == if currentStep < n then currentStep else n
  {
    if n > 0 {
      CompletedCountIsMin(n - 1, currentStep);
    }
  }

  /** The circle's label is the one-based position, written in decimal. */
  function CircleLabel(index: nat): (text: string)
    ensures ParseIntOrZero(text) == index + 1
  {
    ParseNatToString(index + 1);
    NatToString(index + 1)
  }

  /** The connector behind the circles spans from the first centre to the last. */
  function ConnectorWidth(stepCount: nat): (w: int)
    ensures stepCount >= 1 ==> w == StepWidth * stepCount - StepWidth
  {
    (stepCount - 1) * StepWidth
  }

  datatype ShowLabels = Always(show: bool) | Responsive(initial: bool, md: bool)

  /** A boolean applies directly; a responsive setting shows labels when any breakpoint does. */
  function LabelsRendered(s: ShowLabels): (r: bool)
    ensures s.Always? ==> r == s.show
    ensures s.Responsive? ==> (r <==> s.initial || s.md)
  {
    match s
    case Always(show) => show
    case Responsive(initial, md) => initial || md
  }

  /** The wizard passes `{ initial: false, md: true }`, so the labels are rendered. */
  lemma WizardLabelsRendered()
    ensures LabelsRendered(Responsive(false, true))
  {
  }
}
