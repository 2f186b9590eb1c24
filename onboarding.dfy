/** The three-step onboarding flow: a step counter moved by Continue and Back. */
module Onboarding {
  import opened Wrappers

  const TotalSteps: int := 3
  const AppRoute: string := "/app"

  /** The step after Continue: the next one, or the same one at the last step (which navigates instead). */
  function NextStep(step: int): int {
    if step < TotalSteps then step + 1 else step
  }

  /** The step after Back: the previous one, or the same one at the first step. */
  function BackStep(step: int): int {
    if step > 1 then step - 1 else step
  }

  /** The progress bar's value, `step / totalSteps * 100`. */
  function Progress(step: int): real {
    (step as real / TotalSteps as real) * 100.0
  }

  /** The primary button's label. */
  function PrimaryLabel(step: int): string {
    if step == TotalSteps then "Get Started" else "Continue"
  }

  /** Whether the Back button is rendered. */
  predicate ShowsBack(step: int) {
    step > 1
  }

  /** Both moves keep the step within 1..3, and Back undoes Continue on the first two steps. */
  lemma StepMovesSpec(step: int)
    requires 1 <= step <= TotalSteps
    ensures 1 <= NextStep(step) <= TotalSteps && 1 <= BackStep(step) <= TotalSteps
    ensures step < TotalSteps ==> BackStep(NextStep(step)) == step
    ensures step > 1 ==> NextStep(BackStep(step)) == step
    ensures NextStep(step) == step <==> step == TotalSteps
    ensures BackStep(step) == step <==> step == 1
  {
  }

  /**
   * Progress grows with the step and reaches 100 exactly at the last step,
   * which is also the only step labelled "Get Started"; Back shows from step 2 on.
   */
  lemma ProgressSpec(step: int, later: int)
    requires 1 <= step <= TotalSteps && 1 <= later <= TotalSteps
    ensures 0.0 < Progress(step) <= 100.0
    ensures Progress(step) == 100.0 <==> step == TotalSteps
    ensures step < later ==> Progress(step) < Progress(later)
    ensures PrimaryLabel(step) == "Get Started" <==> Progress(step) == 100.0
    ensures ShowsBack(step) <==> step != 1
  {
  }

  class OnboardingFlow {
    var step: int
    /** Where the flow navigated, once Continue is pressed on the last step. */
    var route: Option<string>

    ghost predicate Valid()
      reads this
    {
      1 <= step <= TotalSteps
    }

    constructor ()
      ensures Valid() && step == 1 && route.None?
    {
      step := 1;
      route := None;
    }

    /** `handleNext`. */
    method HandleNext()
      requires Valid()
      modifies this
      ensures Valid()
      ensures step == NextStep(old(step))
      ensures route == if old(step) == TotalSteps then Some(AppRoute) else old(route)
    {
      if step < TotalSteps {
        step := step + 1;
      } else {
        route := Some(AppRoute);
      }
    }

    /** `handleBack`. */
    method HandleBack()
      requires Valid()
      modifies this`step
      ensures Valid()
      ensures step == BackStep(old(step))
    {
      if step > 1 {
        step := step - 1;
      }
    }
  }
}
