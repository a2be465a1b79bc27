/** The six-step "how it works" stepper: a row of numbered circles joined by connectors, and the
    content of the active step below it. */
module HowItWorks {
  import opened Wrappers

  datatype Step = Step(number: nat, title: string, description: string, image: string)

  const Steps := [
    Step(1, "Raise a Request", "Submit your project details and requirements to get started.", "/howItWorks/img1.png"),
    Step(2, "Meet Our Expert", "Connect with our specialists to discuss your vision.", "/howItWorks/img2.png"),
    Step(3, "Book with Us", "Schedule a consultation and confirm your project timeline.", "/howItWorks/img3.png"),
    Step(4, "Receive Designs", "Get customized designs tailored to your needs.", "/howItWorks/img4.png"),
    Step(5, "Track & Transact", "Monitor progress and handle payments seamlessly.", "/howItWorks/img5.png"),
    Step(6, "Settle In", "Complete your project and enjoy the results.", "/howItWorks/img6.png")]

  const StepCount := |Steps|

  /** How far the connector after a circle is drawn: entirely, by the elapsed share of the
      current step, or not at all. */
  datatype Fill = Full | Partial | Empty

  /** Circle `i` is drawn filled when it is the active step or an earlier one. */
  predicate CircleFilled(i: nat, activeStep: nat)
  {
    i <= activeStep
  }

  /** The connector after circle `i`; the last circle has none. */
  function Connector(i: nat, activeStep: nat): (c: Option<Fill>)
    ensures c.None? <==> i >= StepCount - 1
    ensures c == Some(Full) <==> i < StepCount - 1 && i < activeStep
    ensures c == Some(Partial) <==> i < StepCount - 1 && i == activeStep
    ensures c == Some(Empty) <==> i < StepCount - 1 && i > activeStep
  {
    if i < StepCount - 1 then
      Some(if i < activeStep then Full else if i == activeStep then Partial else Empty)
    else None
  }

  /** The bar reads consistently: a full connector joins two filled circles, the partial one
      leaves a filled circle for an unfilled one, and an empty one joins two unfilled circles. */
  lemma ConnectorMatchesCircles(i: nat, activeStep: nat)
    requires i < StepCount - 1
    ensures Connector(i, activeStep) == Some(Full) ==> CircleFilled(i, activeStep) && CircleFilled(i + 1, activeStep)
    ensures Connector(i, activeStep) == Some(Partial) ==> CircleFilled(i, activeStep) && !CircleFilled(i + 1, activeStep)
    ensures Connector(i, activeStep) == Some(Empty) ==> !CircleFilled(i, activeStep) && !CircleFilled(i + 1, activeStep)
  {
  }

  /** The active step after one firing of the interval, wrapping the last step to the first. */
  function Advance(activeStep: nat): (r: nat)
    ensures r < StepCount
    ensures activeStep < StepCount - 1 ==> r == activeStep + 1
    ensures activeStep == StepCount - 1 ==> r == 0
  {
    (activeStep + 1) % StepCount
  }

  /** Six firings bring the stepper back to the step it started from. */
  lemma AdvanceCycle(s: nat)
    requires s < StepCount
    ensures Advance(Advance(Advance(Advance(Advance(Advance(s)))))) == s
  {
  }

  class Stepper {
    var activeStep: nat
    var isPaused: bool

    predicate Valid()
      reads this
    {
      activeStep < StepCount
    }

    constructor ()
      ensures activeStep == 0 && !isPaused && Valid()
    {
      activeStep := 0;
      isPaused := false;
    }

    /** The title, description and image shown below the bar. */
    function Content(): (s: Step)
      reads this
      requires Valid()
      ensures s in Steps && s.number == activeStep + 1
    {
      Steps[activeStep]
    }

    /** One firing of the interval, which runs only while the mouse is off the bar. */
    method Tick()
      modifies this
      requires !isPaused
      ensures activeStep == Advance(old(activeStep)) && !isPaused && Valid()
    {
      activeStep := (activeStep + 1) % StepCount;
    }

    /** A click on circle `i`, one of the rendered circles, makes that step active. */
    method StepClick(i: nat)
      modifies this
      requires i < StepCount
      ensures activeStep == i && isPaused == old(isPaused) && Valid()
      ensures Content() == Steps[i] && CircleFilled(i, activeStep)
      ensures forall j :: j < StepCount && j > i ==> !CircleFilled(j, activeStep)
    {
      activeStep := i;
    }

    method MouseEnter()
      modifies this
      ensures isPaused && activeStep == old(activeStep)
    {
      isPaused := true;
    }

    method MouseLeave()
      modifies this
      ensures !isPaused && activeStep == old(activeStep)
    {
      isPaused := false;
    }
  }
}
