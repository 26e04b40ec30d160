/** The step header of components/features/checkout/StepperHeader.tsx: the
    three steps with a status each, and the at most two steps shown on a
    narrow screen. */
module StepperHeader {
  import opened Seqs

  datatype Step = Step(number: int, title: string)

  const Steps: seq<Step> := [Step(1, "Address"), Step(2, "Shipping"), Step(3, "Payment")]

  /** `steps.filter(n === current || n === current + 1).slice(0, 2)`. */
  function MobileSteps(current: int): (r: seq<Step>)
    ensures |r| <= 2
  {
    var shown := Filter(Steps, (s: Step) => s.number == current || s.number == current + 1);
    shown[..if |shown| < 2 then |shown| else 2]
  }

  /** On a narrow screen the current step and the next are shown; on the
      last step only it, and outside the steps nothing (or step 1, one step
      before it). */
  lemma MobileStepsSpec(current: int)
    ensures 1 <= current <= 2 ==> MobileSteps(current) == [Steps[current - 1], Steps[current]]
    ensures current == 3 ==> MobileSteps(current) == [Steps[2]]
    ensures current == 0 ==> MobileSteps(current) == [Steps[0]]
    ensures (current < 0 || current > 3) ==> MobileSteps(current) == []
  {
    var f := (s: Step) => s.number == current || s.number == current + 1;
    assert Steps[1..][1..] == [Steps[2]];
    assert Steps[2..][1..] == [];
    assert Filter(Steps, f) == (if f(Steps[0]) then [Steps[0]] else []) + Filter(Steps[1..], f);
    assert Filter(Steps[1..], f) == (if f(Steps[1]) then [Steps[1]] else []) + Filter(Steps[2..], f);
    assert Filter(Steps[2..], f) == (if f(Steps[2]) then [Steps[2]] else []);
  }

  datatype Status = Current | Done | Upcoming

  /** The desktop colour of a step's circle. */
  function StatusOf(current: int, number: int): Status
  {
    if current == number then Current else if current > number then Done else Upcoming
  }

  /** On any of the three steps, exactly that step is current, the steps
      before it are done and the ones after it are still to come. */
  lemma OneCurrentStep(current: int)
    requires 1 <= current <= 3
    ensures forall i :: 0 <= i < |Steps| ==>
      (StatusOf(current, Steps[i].number) == Current <==> i == current - 1) &&
      (StatusOf(current, Steps[i].number) == Done <==> i < current - 1) &&
      (StatusOf(current, Steps[i].number) == Upcoming <==> i > current - 1)
  {
    assert forall i :: 0 <= i < |Steps| ==> Steps[i].number == i + 1;
  }
}
