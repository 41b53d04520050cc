/** The onboarding stepper (src/components/onboarding/Onboarding.tsx): a
    counter over three steps with Previous and Next buttons; Next on the last
    step completes the onboarding instead. */
module Onboarding {

  datatype OnboardingStep = OnboardingStep(title: string, description: string, icon: string)

  const Steps: seq<OnboardingStep> := [
    OnboardingStep("Welcome to Student Elections",
                   "Learn how to participate in your student government elections.", "\U{1F393}"),
    OnboardingStep("Voting Process",
                   "View candidates, make your selection, and submit your vote securely.", "\U{1F5F3}\U{FE0F}"),
    OnboardingStep("Election Calendar",
                   "Stay updated with important election dates and deadlines.", "\U{1F4C5}")
  ]

  /** The index of the last step. */
  const LastStep := |Steps| - 1

  /** The buttons a user can press. */
  datatype Press = PressPrevious | PressNext

  /** The step after Previous: the button is disabled on the first step. */
  function AfterPrevious(step: int): (next: int)
    ensures step == 0 ==> next == 0
    ensures step != 0 ==> next == step - 1
  {
    if step == 0 then step else step - 1
  }

  /** The step after Next and whether it completed the onboarding: on the
      last step it completes and stays, elsewhere it moves one step on. */
  function AfterNext(step: int): (r: (int, bool))
    ensures r.1 <==> step == LastStep
    ensures r.0 == if step == LastStep then step else step + 1
  {
    if step == LastStep then (step, true) else (step + 1, false)
  }

  /** The step reached by a sequence of presses from `step`, and whether
      the onboarding completed (it leaves the page, so later presses do
      nothing). */
  function Replay(step: int, presses: seq<Press>): (r: (int, bool))
    ensures presses == [] ==> r == (step, false)
    ensures r.1 ==> r.0 == LastStep
    decreases |presses|
  {
    if presses == [] then (step, false)
    else match presses[0]
      case PressPrevious => Replay(AfterPrevious(step), presses[1..])
      case PressNext =>
        var (next, done) := AfterNext(step);
        if done then (next, true) else Replay(next, presses[1..])
  }

  /** Whatever the user presses, the step stays within the steps. */
  lemma {:induction false} ReplayStaysInRange(step: int, presses: seq<Press>)
    requires 0 <= step <= LastStep
    ensures 0 <= Replay(step, presses).0 <= LastStep
    decreases |presses|
  {
    if presses != [] {
      match presses[0]
      case PressPrevious => ReplayStaysInRange(AfterPrevious(step), presses[1..]);
      case PressNext =>
        if step != LastStep {
          ReplayStaysInRange(step + 1, presses[1..]);
        }
    }
  }

  /** Pressing Next often enough completes the onboarding from any step. */
  lemma {:induction false} EnoughNextsComplete(step: int, presses: seq<Press>)
    requires 0 <= step <= LastStep
    requires |presses| == LastStep - step + 1
    requires forall i :: 0 <= i < |presses| ==> presses[i] == PressNext
    ensures Replay(step, presses) == (LastStep, true)
    decreases |presses|
  {
    if step != LastStep {
      EnoughNextsComplete(step + 1, presses[1..]);
    }
  }

  /** The page's state: the step shown, and whether "Get Started" has
      navigated to the dashboard, after which the page and its buttons are
      gone. */
  class Stepper {
    var currentStep: int
    var finished: bool

    ghost predicate Valid()
      reads this
    {
      0 <= currentStep <= LastStep
    }

    constructor ()
      ensures Valid() && currentStep == 0 && !finished
    {
      currentStep := 0;
      finished := false;
    }

    /** The step shown: defined because the counter stays in range. */
    function Current(): (s: OnboardingStep)
      reads this
      requires Valid()
      ensures s in Steps
    {
      Steps[currentStep]
    }

    function PreviousDisabled(): (disabled: bool)
      reads this
      ensures disabled <==> currentStep == 0
      ensures disabled <==> AfterPrevious(currentStep) == currentStep
    {
      currentStep == 0
    }

    /** The caption of the Next button. */
    function NextCaption(): (caption: string)
      reads this
      ensures caption == "Get Started" <==> currentStep == LastStep
      ensures caption == "Next" <==> currentStep != LastStep
    {
      if currentStep == LastStep then "Get Started" else "Next"
    }

    /** A press of Previous. */
    method Previous()
      requires Valid() && !finished
      modifies this
      ensures Valid()
      ensures currentStep == AfterPrevious(old(currentStep)) && !finished
    {
      if currentStep != 0 {
        currentStep := currentStep - 1;
      }
    }

    /** A press of Next; `completed` when it finishes the onboarding. */
    method Next() returns (completed: bool)
      requires Valid() && !finished
      modifies this
      ensures Valid()
      ensures (currentStep, completed) == AfterNext(old(currentStep))
      ensures finished == completed
      ensures finished <==> old(currentStep) == LastStep
    {
      if currentStep == LastStep {
        completed := true;
        finished := true;
      } else {
        currentStep := currentStep + 1;
        completed := false;
      }
    }
  }
}
