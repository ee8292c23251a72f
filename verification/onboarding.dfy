/** The onboarding stepper (src/components/auth/onboarding.tsx): three steps
    walked through with Next and Back; Next on the last step goes to the
    dashboard. */
module Onboarding {
  import opened Ui

  /** The `id`s of the steps, in order. */
  const Steps: seq<string> := ["welcome", "security", "trusted-contacts"]

  const LastStep := |Steps| - 1
  const DashboardPath := "/dashboard"

  /** `animationDirection` */
  datatype Direction = Next | Prev

  /** A snapshot of the stepper's state. */
  datatype Stepper = Stepper(currentStep: int, animationDirection: Direction)

  /** `useState(0)` and `useState('next')`. */
  const Initial := Stepper(0, Next)

  predicate InRange(s: Stepper) { 0 <= s.currentStep < |Steps| }

  /** What `nextStep` does to the stepper, and where it leads. */
  function AfterNext(s: Stepper): (r: (Stepper, Outcome))
    ensures InRange(s) ==> InRange(r.0)
    ensures s.currentStep < LastStep ==> r == (Stepper(s.currentStep + 1, Next), Stay)
    ensures s.currentStep >= LastStep ==> r == (s, Navigate(DashboardPath))
  {
    if s.currentStep < LastStep then
      (Stepper(s.currentStep + 1, Next), Stay)
    else
      (s, Navigate(DashboardPath))
  }

  /** What `prevStep` does to the stepper. */
  function AfterBack(s: Stepper): (r: Stepper)
    ensures InRange(s) ==> InRange(r)
    ensures s.currentStep > 0 ==> r == Stepper(s.currentStep - 1, Prev)
    ensures s.currentStep <= 0 ==> r == s
  {
    if s.currentStep > 0 then Stepper(s.currentStep - 1, Prev) else s
  }

  /** `isLastStep` */
  predicate IsLastStep(s: Stepper)
    ensures IsLastStep(s) <==> s.currentStep == 2
    ensures IsLastStep(s) ==> Steps[s.currentStep] == "trusted-contacts"
  {
    s.currentStep == LastStep
  }

  /** The caption of the forward button. */
  function NextCaption(s: Stepper): (c: string)
    ensures c == "Get Started" <==> IsLastStep(s)
  {
    if IsLastStep(s) then "Get Started" else "Next"
  }

  /** `disabled={currentStep === 0}` on the Back button. */
  predicate BackDisabled(s: Stepper)
    // within the steps, Back is disabled exactly where it would do nothing
    ensures InRange(s) ==> (BackDisabled(s) <==> AfterBack(s) == s)
  {
    s.currentStep == 0
  }

  /** The three looks of a progress indicator. */
  datatype Indicator = Current | Completed | Upcoming

  /** The nested conditional that styles indicator `index`. */
  function IndicatorOf(s: Stepper, index: int): (r: Indicator)
    ensures r == Current <==> index == s.currentStep
    ensures r == Completed <==> index < s.currentStep
    ensures r == Upcoming <==> index > s.currentStep
  {
    if index == s.currentStep then Current
    else if index < s.currentStep then Completed
    else Upcoming
  }

  /** A check mark replaces the step number on indicators before the current one. */
  predicate ShowsCheckmark(s: Stepper, index: int)
    ensures ShowsCheckmark(s, index) <==> IndicatorOf(s, index) == Completed
  {
    index < s.currentStep
  }

  /** The connector line drawn after every indicator but the last:
      `None` where there is none, otherwise whether it is filled
      (`bg-primary`) rather than muted. */
  function Connector(s: Stepper, index: int): (r: Option<bool>)
    ensures r.Some? <==> index < LastStep
    // a line is filled exactly after a completed step
    ensures r.Some? ==> (r.value <==> IndicatorOf(s, index) == Completed)
  {
    if index < LastStep then Some(index < s.currentStep) else None
  }

  /** The three independent conditional classes of content panel `index`. */
  datatype PanelClasses = PanelClasses(shown: bool, offRight: bool, offLeft: bool)

  function Panel(s: Stepper, index: int): (r: PanelClasses)
    ensures (if r.shown then 1 else 0) + (if r.offRight then 1 else 0) + (if r.offLeft then 1 else 0) == 1
  {
    PanelClasses(
      shown := index == s.currentStep,
      offRight := index > s.currentStep,
      offLeft := index < s.currentStep)
  }

  /** A click on one of the two buttons. */
  datatype Click = NextClick | BackClick

  /** A run of clicks, stopping at the first navigation away. */
  function Run(s: Stepper, cs: seq<Click>): (r: (Stepper, Outcome))
    ensures r.1 == Stay || r.1 == Navigate(DashboardPath)
    // without a Next click the page is never left
    ensures NextClick !in cs ==> r.1 == Stay
    decreases cs
  {
    if cs == [] then (s, Stay)
    else match cs[0]
      case NextClick =>
        var (s1, o) := AfterNext(s);
        if o.Leaves() then (s1, o) else Run(s1, cs[1..])
      case BackClick => Run(AfterBack(s), cs[1..])
  }

  class OnboardingView {
    var currentStep: int
    var animationDirection: Direction

    function Snapshot(): Stepper
      reads this
    {
      Stepper(currentStep, animationDirection)
    }

    ghost predicate Valid()
      reads this
    {
      InRange(Snapshot())
    }

    constructor ()
      ensures Valid()
      ensures Snapshot() == Initial
    {
      currentStep := 0;
      animationDirection := Next;
    }

    method NextStep() returns (r: Outcome)
      requires Valid()
      modifies this
      ensures Valid()
      ensures (Snapshot(), r) == AfterNext(old(Snapshot()))
    {
      if currentStep < |Steps| - 1 {
        animationDirection := Next;
        currentStep := currentStep + 1;
        r := Stay;
      } else {
        r := Navigate(DashboardPath);
      }
    }

    method PrevStep()
      requires Valid()
      modifies this
      ensures Valid()
      ensures Snapshot() == AfterBack(old(Snapshot()))
    {
      if currentStep > 0 {
        animationDirection := Prev;
        currentStep := currentStep - 1;
      }
    }
  }

  // ---------------------------------------------------------------------------
  // Properties
  // ---------------------------------------------------------------------------

  /** The step index stays within the steps however the buttons are clicked,
      and any navigation away is to the dashboard from the last step. */
  lemma {:induction false} RunStaysInRange(s: Stepper, cs: seq<Click>)
    requires InRange(s)
    ensures InRange(Run(s, cs).0)
    ensures Run(s, cs).1.Leaves() ==>
      Run(s, cs).1 == Navigate(DashboardPath) && IsLastStep(Run(s, cs).0)
    decreases cs
  {
    if cs != [] {
      match cs[0]
      case NextClick =>
        var (s1, o) := AfterNext(s);
        if !o.Leaves() {
          RunStaysInRange(s1, cs[1..]);
        }
      case BackClick =>
        RunStaysInRange(AfterBack(s), cs[1..]);
    }
  }

  /** Back after a Next that moved forward returns to the same step. */
  lemma BackUndoesNext(s: Stepper)
    requires InRange(s) && !IsLastStep(s)
    ensures AfterBack(AfterNext(s).0).currentStep == s.currentStep
    ensures AfterBack(AfterNext(s).0).animationDirection == Prev
  {
  }

  /** Next leaves the page exactly on the last step, where the button reads
      "Get Started"; Back never leaves the page and does nothing when disabled. */
  lemma NextLeavesOnlyFromLastStep(s: Stepper)
    requires InRange(s)
    ensures AfterNext(s).1.Leaves() <==> IsLastStep(s)
    ensures AfterNext(s).1.Leaves() <==> NextCaption(s) == "Get Started"
    ensures BackDisabled(s) ==> AfterBack(s) == s
  {
  }

  /** Every step index is exactly one of current, completed or upcoming; the
      check mark is shown, and the connector line after it filled, exactly on
      completed steps; and the content panel agrees with the indicator. */
  lemma IndicatorsPartition(s: Stepper, index: int)
    ensures ShowsCheckmark(s, index) <==> IndicatorOf(s, index) == Completed
    ensures index < LastStep ==> (Connector(s, index) == Some(true) <==> ShowsCheckmark(s, index))
    ensures Panel(s, index).shown <==> IndicatorOf(s, index) == Current
    ensures Panel(s, index).offLeft <==> IndicatorOf(s, index) == Completed
    ensures Panel(s, index).offRight <==> IndicatorOf(s, index) == Upcoming
  {
  }
}
