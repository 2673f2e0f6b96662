/**
 * The multi-step form controller: which step is shown, how a submission of the
 * current step is dispatched (to the step's own handler or to the final
 * submission) and how a failure becomes the displayed error message.
 */
module MultiStep {
  import opened Options
  import opened Formik
  import opened ErrorNormalizer

  /** How an awaited collaborator settled: resolved, or rejected with an error. */
  datatype Outcome = Ok | Fail(error: ApiError)

  /** A call the form makes into a collaborator, in the order it makes them. */
  datatype Effect<S> =
    | StepSubmitNotified(values: Values)          // onStepSubmit(values)
    | StepHandlerCalled(step: S, values: Values)  // steps[stepNumber].submitHandler(values)
    | FinalSubmitCalled(values: Values)           // onFinalSubmit(values)
    | FinalSubmitSuccessNotified(values: Values)  // onFinalSubmitSuccess(values)

  /**
   * The `onStepSubmit` prop as the form reads it: the value passed under that
   * name, or the library no-op when no such prop was passed.
   */
  function StepObserverProp<H>(props: map<string, H>, noop: H): (h: H)
    ensures "onStepSubmit" !in props ==> h == noop
    ensures "onStepSubmit" in props ==> h == props["onStepSubmit"]
  {
    if "onStepSubmit" in props then props["onStepSubmit"] else noop
  }

  class MultiStepForm<S> {
    /** The steps prop; the parent may pass a different list on any render. */
    var steps: seq<S>
    /** The generic error-message extractor, which is not part of this model. */
    const getErrorMessage: ApiError -> string
    var stepNumber: int
    var errorMessage: string
    var effects: seq<Effect<S>>

    /** The step index points into the current step list. */
    ghost predicate Valid()
      reads this
    {
      0 <= stepNumber < |steps|
    }

    constructor (steps: seq<S>, getErrorMessage: ApiError -> string)
      ensures this.steps == steps && this.getErrorMessage == getErrorMessage
      ensures stepNumber == 0 && errorMessage == "" && effects == []
      ensures |steps| > 0 ==> Valid()
    {
      this.steps := steps;
      this.getErrorMessage := getErrorMessage;
      stepNumber := 0;
      errorMessage := "";
      effects := [];
    }

    /** The current step is the last one: no step follows it in the list. */
    function IsLastStep(): (r: bool)
      reads this
      ensures Valid() ==> (r <==> !(stepNumber + 1 < |steps|))
      ensures r ==> stepNumber + 1 == |steps|
    {
      stepNumber == |steps| - 1
    }

    /** The "Previous" control is rendered only past the first step. */
    function OffersPrevious(): (r: bool)
      reads this
      ensures Valid() ==> (r <==> stepNumber != 0)
      ensures r ==> 0 <= stepNumber - 1
    {
      stepNumber > 0
    }

    /** A props update from the parent: the step index is kept as it is, not clamped. */
    method ReceiveSteps(newSteps: seq<S>)
      modifies this`steps
      ensures steps == newSteps
    {
      steps := newSteps;
    }

    /** Called only when the current step is not the last one. */
    method ShowNextStep()
      requires !IsLastStep()
      modifies this`stepNumber
      ensures stepNumber == old(stepNumber) + 1
      ensures old(Valid()) ==> Valid()
    {
      stepNumber := stepNumber + 1;
    }

    /** Called only when the current step is not the first one. */
    method ShowPreviousStep()
      requires stepNumber != 0
      modifies this`stepNumber
      ensures stepNumber == old(stepNumber) - 1
      ensures old(Valid()) ==> Valid()
    {
      stepNumber := stepNumber - 1;
    }

    method HandleError(error: ApiError)
      modifies this`errorMessage
      ensures errorMessage == Normalize(error, getErrorMessage)
    {
      errorMessage := Normalize(error, getErrorMessage);
    }

    /**
     * Formik's submit callback. `settled` is how the one awaited collaborator
     * of this call (the step's handler, or the final submission) settled.
     */
    method HandleSubmit(bag: FormikBag, settled: Outcome)
      requires Valid()
      modifies this`errorMessage, this`stepNumber, this`effects, bag
      ensures Valid()
      ensures !bag.isSubmitting
      ensures errorMessage == if settled.Ok? then "" else Normalize(settled.error, getErrorMessage)
      // last step: the final submission, then reset and success callback, or an error
      ensures old(IsLastStep()) ==>
                && stepNumber == old(stepNumber)
                && effects == old(effects)
                              + [StepSubmitNotified(old(bag.values)), FinalSubmitCalled(old(bag.values))]
                              + (if settled.Ok? then [FinalSubmitSuccessNotified(old(bag.values))] else [])
      ensures old(IsLastStep()) && settled.Ok? ==>
                bag.values == bag.initialValues && bag.touched == map[] && bag.errors == map[]
      // any other step: that step's handler, then advance or an error
      ensures !old(IsLastStep()) ==>
                && stepNumber == old(stepNumber) + (if settled.Ok? then 1 else 0)
                && effects == old(effects)
                              + [StepSubmitNotified(old(bag.values)),
                                 StepHandlerCalled(steps[old(stepNumber)], old(bag.values))]
      // the form keeps its values on every path but a successful final submission
      ensures !(old(IsLastStep()) && settled.Ok?) ==>
                bag.values == old(bag.values) && bag.touched == old(bag.touched) && bag.errors == old(bag.errors)
    {
      var values := bag.values;
      if errorMessage != "" {
        errorMessage := "";
      }
      effects := effects + [StepSubmitNotified(values)];

      if IsLastStep() {
        effects := effects + [FinalSubmitCalled(values)];
        match settled {
          case Ok =>
            bag.SetSubmitting(false);
            bag.ResetForm();
            effects := effects + [FinalSubmitSuccessNotified(values)];
          case Fail(error) =>
            bag.SetSubmitting(false);
            HandleError(error);
        }
        return;
      }

      var currentStep := steps[stepNumber];
      effects := effects + [StepHandlerCalled(currentStep, values)];
      match settled {
        case Ok =>
          bag.SetSubmitting(false);
          ShowNextStep();
        case Fail(error) =>
          bag.SetSubmitting(false);
          HandleError(error);
      }
    }
  }

  /** A form failing its final submission with a field error stays on the last step. */
  method FinalStepRejectionScenario(getErrorMessage: ApiError -> string)
  {
    var bag := new FormikBag(map["username" := Str("")]);
    var form := new MultiStepForm<int>([0], getErrorMessage);
    var data: FieldErrors := [("username", ["is invalid"])];
    UsernameInvalidMessage(getErrorMessage);
    form.HandleSubmit(bag, Fail(ApiError(Some(data), "Request failed")));
    assert form.stepNumber == 0 && form.errorMessage == "Username is invalid.";
    assert !bag.isSubmitting && bag.values == map["username" := Str("")];
  }
}
