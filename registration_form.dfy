/**
 * The registration flow: its ordered step list, which shows the military
 * details step only while a flag is set, the default initial values merged
 * from every step, and the props it hands to the multi-step form.
 */
module Registration {
  import opened Options
  import opened Formik
  import opened ErrorNormalizer
  import opened MultiStep

  datatype StepId = Initial | PersonalDetails | MilitaryStatus | MilitaryDetails | Technology

  /** The array helper that contributes `[x]` when the condition holds and nothing otherwise. */
  function InsertIf<T>(condition: bool, x: T): seq<T> {
    if condition then [x] else []
  }

  /** The step list the form renders for a given value of the military flag. */
  function Steps(showMilitary: bool): (steps: seq<StepId>)
    ensures |steps| == if showMilitary then 5 else 4
    ensures steps[..3] == [Initial, PersonalDetails, MilitaryStatus]
    ensures steps[|steps| - 1] == Technology
    ensures MilitaryDetails in steps <==> showMilitary
    ensures showMilitary ==> steps[3] == MilitaryDetails
    ensures forall i, j :: 0 <= i < j < |steps| ==> steps[i] != steps[j]
  {
    [Initial, PersonalDetails, MilitaryStatus] + InsertIf(showMilitary, MilitaryDetails) + [Technology]
  }

  /** Toggling the flag never renumbers the first three steps. */
  lemma StepsPrefixStable(a: bool, b: bool, k: nat)
    requires k < 3
    ensures Steps(a)[k] == Steps(b)[k]
  {
  }

  /** The order in which the steps' own initial values are spread into the defaults. */
  const DeclarationOrder: seq<StepId> := [Initial, PersonalDetails, MilitaryStatus, MilitaryDetails, Technology]

  /** Object spread of a sequence of maps, left to right: a later map wins on a shared key. */
  function MergeAll(layers: seq<Values>): (r: Values)
    ensures |layers| > 0 ==> forall k :: k in layers[|layers| - 1] ==> k in r && r[k] == layers[|layers| - 1][k]
    ensures |layers| == 0 ==> r == map[]
  {
    if |layers| == 0 then map[] else MergeAll(layers[..|layers| - 1]) + layers[|layers| - 1]
  }

  lemma {:induction false} MergeAllKeys(layers: seq<Values>, k: string)
    ensures k in MergeAll(layers) <==> exists i :: 0 <= i < |layers| && k in layers[i]
  {
    if |layers| > 0 {
      var front := layers[..|layers| - 1];
      MergeAllKeys(front, k);
      if k in MergeAll(front) {
        var i :| 0 <= i < |front| && k in front[i];
        assert layers[i] == front[i];
      }
      if exists i :: 0 <= i < |layers| && k in layers[i] {
        var i :| 0 <= i < |layers| && k in layers[i];
        if i < |front| { assert front[i] == layers[i]; }
      }
    }
  }

  lemma {:induction false} MergeAllLastWins(layers: seq<Values>, k: string, i: nat)
    requires i < |layers| && k in layers[i]
    requires forall j :: i < j < |layers| ==> k !in layers[j]
    ensures k in MergeAll(layers) && MergeAll(layers)[k] == layers[i][k]
  {
    var front := layers[..|layers| - 1];
    if i < |layers| - 1 {
      assert front[i] == layers[i];
      MergeAllLastWins(front, k, i);
    }
  }

  /**
   * The default initial values: the steps' own initial values, spread in
   * declaration order. The steps' definitions are not part of this model, so
   * `initialValuesOf` is passed in.
   */
  function DefaultInitialValues(initialValuesOf: StepId -> Values): (r: Values)
    ensures forall k :: k in initialValuesOf(Technology) ==> k in r && r[k] == initialValuesOf(Technology)[k]
  {
    MergeAll(seq(|DeclarationOrder|, i requires 0 <= i < |DeclarationOrder| => initialValuesOf(DeclarationOrder[i])))
  }

  /**
   * A key is in the defaults iff some step declares it, and its value is the
   * one of the last step, in declaration order, that declares it.
   */
  lemma DefaultInitialValuesLastStepWins(initialValuesOf: StepId -> Values, k: string, i: nat)
    requires i < |DeclarationOrder| && k in initialValuesOf(DeclarationOrder[i])
    requires forall j :: i < j < |DeclarationOrder| ==> k !in initialValuesOf(DeclarationOrder[j])
    ensures k in DefaultInitialValues(initialValuesOf)
    ensures DefaultInitialValues(initialValuesOf)[k] == initialValuesOf(DeclarationOrder[i])[k]
  {
    var layers := seq(|DeclarationOrder|, i requires 0 <= i < |DeclarationOrder| => initialValuesOf(DeclarationOrder[i]));
    MergeAllLastWins(layers, k, i);
  }

  lemma DefaultInitialValuesKeys(initialValuesOf: StepId -> Values, k: string)
    ensures k in DefaultInitialValues(initialValuesOf) <==>
            exists s :: s in DeclarationOrder && k in initialValuesOf(s)
  {
    var layers := seq(|DeclarationOrder|, i requires 0 <= i < |DeclarationOrder| => initialValuesOf(DeclarationOrder[i]));
    MergeAllKeys(layers, k);
    if exists s :: s in DeclarationOrder && k in initialValuesOf(s) {
      var s :| s in DeclarationOrder && k in initialValuesOf(s);
      var i :| 0 <= i < |DeclarationOrder| && DeclarationOrder[i] == s;
      assert k in layers[i];
    }
  }

  /** `values.militaryStatus`, `undefined` when the field is missing. */
  function MilitaryStatusOf(values: Values): Option<FieldValue> {
    if "militaryStatus" in values then Some(values["militaryStatus"]) else None
  }

  /** The flag after the value watcher has run on `values`. */
  function NextMilitaryFlag(current: bool, values: Values): (r: bool)
    ensures MilitaryStatusOf(values) == Some(Str("")) ==> r == current
    ensures MilitaryStatusOf(values) != Some(Str("")) ==>
              (r <==> MilitaryStatusOf(values) in {Some(Str("veteran")), Some(Str("current"))})
  {
    var status := MilitaryStatusOf(values);
    if status == Some(Str("")) then current
    else status == Some(Str("veteran")) || status == Some(Str("current"))
  }

  /** Unless the status is the empty string, the new flag depends only on `values`. */
  lemma MilitaryFlagIgnoresCurrent(a: bool, b: bool, values: Values)
    requires MilitaryStatusOf(values) != Some(Str(""))
    ensures NextMilitaryFlag(a, values) == NextMilitaryFlag(b, values)
    ensures NextMilitaryFlag(a, values) <==>
            MilitaryStatusOf(values) in {Some(Str("veteran")), Some(Str("current"))}
  {
  }

  /** Running the watcher twice on the same values is the same as running it once. */
  lemma MilitaryFlagIdempotent(current: bool, values: Values)
    ensures NextMilitaryFlag(NextMilitaryFlag(current, values), values) == NextMilitaryFlag(current, values)
  {
  }

  /** The callback props the registration form passes. */
  datatype Handler = ValueChangeHandler | LoginHandler | EmptySuccessHandler | NoopHandler

  /** The callbacks passed to the multi-step form, under the names they are passed. */
  const RenderedHandlers: map<string, Handler> :=
    map["onAllButLastStepSubmit" := ValueChangeHandler,
        "onFinalSubmit" := LoginHandler,
        "onFinalSubmitSuccess" := EmptySuccessHandler]

  /**
   * The value watcher is passed under a name the multi-step form does not
   * read, so the form's step observer is the no-op.
   */
  lemma StepObserverIsNoop()
    ensures StepObserverProp(RenderedHandlers, NoopHandler) == NoopHandler
    ensures ValueChangeHandler in RenderedHandlers.Values
  {
    assert "onStepSubmit"[2] != "onAllButLastStepSubmit"[2];
    assert "onStepSubmit"[2] != "onFinalSubmit"[2];
    assert |"onStepSubmit"| != |"onFinalSubmitSuccess"|;
    assert RenderedHandlers["onAllButLastStepSubmit"] == ValueChangeHandler;
  }

  class RegistrationForm {
    const initialValues: Values
    var shouldShowMilitaryStep: bool

    constructor (initialValues: Values)
      ensures this.initialValues == initialValues && !shouldShowMilitaryStep
    {
      this.initialValues := initialValues;
      shouldShowMilitaryStep := false;
    }

    /** The step list of the current render. */
    function CurrentSteps(): seq<StepId>
      reads this
    {
      Steps(shouldShowMilitaryStep)
    }

    method ShowMilitaryStep()
      modifies this`shouldShowMilitaryStep
      ensures shouldShowMilitaryStep
    {
      shouldShowMilitaryStep := true;
    }

    method HideMilitaryStep()
      modifies this`shouldShowMilitaryStep
      ensures !shouldShowMilitaryStep
    {
      shouldShowMilitaryStep := false;
    }

    method OnValueChange(values: Values)
      modifies this`shouldShowMilitaryStep
      ensures shouldShowMilitaryStep == NextMilitaryFlag(old(shouldShowMilitaryStep), values)
    {
      if MilitaryStatusOf(values) == Some(Str("")) {
        return;
      }
      var isMilitary := MilitaryStatusOf(values) == Some(Str("veteran")) || MilitaryStatusOf(values) == Some(Str("current"));
      if isMilitary {
        ShowMilitaryStep();
      } else {
        HideMilitaryStep();
      }
    }

    /** What invoking one of this form's callback props does to this form. */
    method Invoke(handler: Handler, values: Values)
      modifies this`shouldShowMilitaryStep
      ensures shouldShowMilitaryStep ==
              if handler == ValueChangeHandler then NextMilitaryFlag(old(shouldShowMilitaryStep), values)
              else old(shouldShowMilitaryStep)
    {
      if handler == ValueChangeHandler {
        OnValueChange(values);
      }
    }
  }

  /**
   * The registration form rendering the multi-step form over a Formik bag:
   * each submission runs the form's submit callback, delivers the step
   * observer the form resolved from its props, and re-renders the step list.
   */
  class RegistrationFlow {
    const registration: RegistrationForm
    const form: MultiStepForm<StepId>
    const bag: FormikBag

    ghost predicate Valid()
      reads this, registration, form
    {
      form.Valid() && form.steps == registration.CurrentSteps() && bag.initialValues == registration.initialValues
    }

    constructor (initialValues: Values, getErrorMessage: ApiError -> string)
      ensures Valid() && fresh(registration) && fresh(form) && fresh(bag)
      ensures !registration.shouldShowMilitaryStep && form.stepNumber == 0 && form.errorMessage == ""
      ensures form.steps == [Initial, PersonalDetails, MilitaryStatus, Technology]
      ensures bag.values == initialValues
      ensures registration.initialValues == initialValues && bag.initialValues == initialValues
      ensures form.getErrorMessage == getErrorMessage && form.effects == []
      ensures bag.touched == map[] && bag.errors == map[] && !bag.isSubmitting
    {
      var r := new RegistrationForm(initialValues);
      registration := r;
      bag := new FormikBag(initialValues);
      form := new MultiStepForm(r.CurrentSteps(), getErrorMessage);
    }

    /**
     * One press of the submit button. As written the flag never changes, so
     * the military details step never joins the list.
     */
    method Submit(settled: Outcome)
      requires Valid()
      modifies registration, form, bag
      ensures Valid()
      ensures registration.shouldShowMilitaryStep == old(registration.shouldShowMilitaryStep)
      ensures form.steps == old(form.steps)
      ensures !bag.isSubmitting
      ensures form.stepNumber == old(form.stepNumber) + (if !old(form.IsLastStep()) && settled.Ok? then 1 else 0)
      ensures form.errorMessage == if settled.Ok? then "" else Normalize(settled.error, form.getErrorMessage)
      ensures form.effects == old(form.effects) + [StepSubmitNotified(old(bag.values))] +
                (if !old(form.IsLastStep()) then [StepHandlerCalled(old(form.steps)[old(form.stepNumber)], old(bag.values))]
                 else [FinalSubmitCalled(old(bag.values))] +
                      (if settled.Ok? then [FinalSubmitSuccessNotified(old(bag.values))] else []))
      ensures old(form.IsLastStep()) && settled.Ok? ==> bag.values == bag.initialValues
      ensures !(old(form.IsLastStep()) && settled.Ok?) ==> bag.values == old(bag.values)
      ensures old(form.IsLastStep()) && settled.Ok? ==> bag.touched == map[] && bag.errors == map[]
      ensures !(old(form.IsLastStep()) && settled.Ok?) ==> bag.touched == old(bag.touched) && bag.errors == old(bag.errors)
    {
      var values := bag.values;
      bag.SetSubmitting(true);
      form.HandleSubmit(bag, settled);
      StepObserverIsNoop();
      registration.Invoke(StepObserverProp(RenderedHandlers, NoopHandler), values);
      form.ReceiveSteps(registration.CurrentSteps());
    }

    /** The "Previous" control, rendered only past the first step. */
    method Previous()
      requires Valid() && form.OffersPrevious()
      modifies form`stepNumber
      ensures Valid() && form.stepNumber == old(form.stepNumber) - 1
    {
      form.ShowPreviousStep();
    }
  }
}
