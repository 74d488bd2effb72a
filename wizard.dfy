/**
 * The request wizard's step machine (`routes/request.tsx`): a step index
 * 0..3 (general info, inputs, outputs, comments), the `next`/`prev`
 * callbacks wired into each step, the "Final" shortcut, which step is
 * shown and the progress bar.
 */
module Wizard {
  import opened Seqs

  const FirstStep: int := 0
  const FinalStep: int := 3

  predicate IsStep(step: int) {
    0 <= step <= FinalStep
  }

  /** The `next` callback handed to the step shown at `step`, as the step it
      sets; the comments step is given none. */
  function NextTarget(step: int): (r: Option<int>)
    requires IsStep(step)
    ensures r.Some? <==> step < FinalStep
    ensures r.Some? ==> r.value == step + 1
  {
    if step == 0 then Some(1)
    else if step == 1 then Some(2)
    else if step == 2 then Some(3)
    else None
  }

  /** The `prev` callback handed to the step shown at `step`; the general
      information step is given none. */
  function PrevTarget(step: int): (r: Option<int>)
    requires IsStep(step)
    ensures r.Some? <==> step > FirstStep
    ensures r.Some? ==> r.value == step - 1
  {
    if step == 1 then Some(0)
    else if step == 2 then Some(1)
    else if step == 3 then Some(2)
    else None
  }

  /** What pressing the forward button of the shown step does to the step:
      the general-information step calls `next` only after its schema
      validation passes; the inputs step (a stub) calls `next` directly; the
      outputs step's submit handler only logs, so it never calls `next`;
      the comments step has no forward button. */
  function ForwardTarget(step: int, generalInfoValid: bool): (r: int)
    requires IsStep(step)
    ensures IsStep(r)
    ensures r == step + 1 <==> (step == 0 && generalInfoValid) || step == 1
    ensures r != step + 1 ==> r == step
  {
    if step == 0 then (if generalInfoValid then NextTarget(0).value else 0)
    else if step == 1 then NextTarget(1).value
    else step
  }

  /** The progress bar's value, `(formStep + 1) * 25`. */
  function Progress(step: int): (p: int)
    requires IsStep(step)
    ensures p == 25 || p == 50 || p == 75 || p == 100
    ensures p == 100 <==> step == FinalStep
  {
    (step + 1) * 25
  }

  /** The bar starts at a quarter, grows by a quarter with each step and is
      full exactly on the comments step. */
  lemma ProgressGrows(i: int, j: int)
    requires IsStep(i) && IsStep(j)
    ensures Progress(FirstStep) == 25 && Progress(FinalStep) == 100
    ensures i < j ==> Progress(i) < Progress(j)
    ensures i < FinalStep ==> Progress(i + 1) == Progress(i) + 25
  {
  }

  /** Step `i` is rendered (not `isHidden`) exactly when it is the current one. */
  predicate Shown(step: int, i: int) {
    step == i
  }

  /** Exactly one of the four steps is shown. */
  lemma {:induction false} ExactlyOneShown(step: int)
    requires IsStep(step)
    ensures (set i | 0 <= i <= FinalStep && Shown(step, i)) == {step}
  {
    var s := set i | 0 <= i <= FinalStep && Shown(step, i);
    assert step in s;
    forall i | i in s ensures i == step { }
  }

  /** A user action on the wizard. */
  datatype Action =
    | Forward(generalInfoValid: bool)  // the shown step's forward button
    | Back                             // the shown step's back button
    | Final(saidasStored: bool)        // the "Final" button, shown only when the store holds outputs

  /** The step after action `a` on the step shown at `step`. */
  function Apply(step: int, a: Action): (r: int)
    requires IsStep(step)
    ensures IsStep(r)
    ensures a.Forward? ==> r == ForwardTarget(step, a.generalInfoValid)
    ensures a == Back ==> r == if step > FirstStep then step - 1 else step
    ensures a == Final(true) ==> r == FinalStep
    ensures a == Final(false) ==> r == step
  {
    match a
    case Forward(v) => ForwardTarget(step, v)
    case Back => PrevTarget(step).GetOr(step)
    case Final(stored) => if stored then FinalStep else step
  }

  function Run(step: int, actions: seq<Action>): (r: int)
    requires IsStep(step)
    ensures IsStep(r)
    decreases |actions|
  {
    if actions == [] then step else Run(Apply(step, actions[0]), actions[1..])
  }

  /** The comments step is reached from an earlier step only through the
      "Final" shortcut, which needs outputs in the store: the outputs step
      never calls its `next`. */
  lemma {:induction false} FinalStepNeedsShortcut(step: int, actions: seq<Action>)
    requires IsStep(step) && step < FinalStep
    requires Run(step, actions) == FinalStep
    ensures Final(true) in actions
    decreases |actions|
  {
    if actions != [] {
      var next := Apply(step, actions[0]);
      if actions[0] != Final(true) {
        assert next < FinalStep;
        FinalStepNeedsShortcut(next, actions[1..]);
        assert Final(true) in actions[1..];
      }
    }
  }

  class RequestWizard {
    var step: int

    ghost predicate Valid()
      reads this
    {
      IsStep(step)
    }

    /** `useState(0)`. */
    constructor ()
      ensures Valid() && step == FirstStep
    {
      step := FirstStep;
    }

    /** `isHidden={formStep !== i}` for the step with index `i`. */
    predicate IsHidden(i: int)
      reads this
    {
      !Shown(step, i)
    }

    /** The shown step's `next` callback, when it has one. */
    method Next() returns (fired: bool)
      requires Valid()
      modifies this
      ensures Valid()
      ensures fired <==> old(step) < FinalStep
      ensures step == if fired then old(step) + 1 else old(step)
    {
      var target := NextTarget(step);
      fired := target.Some?;
      if fired {
        step := target.value;
      }
    }

    /** The shown step's `prev` callback, when it has one. */
    method Prev() returns (fired: bool)
      requires Valid()
      modifies this
      ensures Valid()
      ensures fired <==> old(step) > FirstStep
      ensures step == if fired then old(step) - 1 else old(step)
    {
      var target := PrevTarget(step);
      fired := target.Some?;
      if fired {
        step := target.value;
      }
    }

    /** `goToFinalStep`, reachable only through the "Final" button, which is
        rendered when `storedFormData.saidas` is defined. */
    method GoToFinal(saidasStored: bool) returns (offered: bool)
      requires Valid()
      modifies this
      ensures Valid()
      ensures offered == saidasStored
      ensures step == if offered then FinalStep else old(step)
    {
      offered := saidasStored;
      if offered {
        step := FinalStep;
      }
    }

    /** The shown step's forward button (see ForwardTarget). */
    method PressForward(generalInfoValid: bool)
      requires Valid()
      modifies this
      ensures Valid()
      ensures step == ForwardTarget(old(step), generalInfoValid)
    {
      if step == 0 {
        if generalInfoValid {
          var _ := Next();
        }
      } else if step == 1 {
        var _ := Next();
      }
    }
  }
}
