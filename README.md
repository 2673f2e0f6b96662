# Multi-step registration form: a Dafny model

This project models the form logic of a multi-page registration flow, built from
React components and the Formik form library:

- **MultiStepForm** (`multi_step_form.dfy`, module `MultiStep`). A class holding
  the current step index `stepNumber` (starts at 0) and the displayed
  `errorMessage` (starts empty). It has the step transitions, the error handler,
  and the submit callback. The submit callback either runs the current step's
  own handler and advances, or, on the last step, runs the final submission and
  resets the form. A rejection becomes an error message instead.
- **The error message builder** (`error_normalizer.dfy`, module
  `ErrorNormalizer`). A response body that is a field-error map with no `error`
  key becomes one line per key, in key order: the capitalised key, a space, the
  first message and a full stop, with lines joined by newlines. Any other
  failure goes to the generic message extractor.
- **RegistrationForm** (`registration_form.dfy`, module `Registration`). The
  ordered step list `Initial, PersonalDetails, MilitaryStatus, [MilitaryDetails],
  Technology`. The bracketed step is present only while the
  `shouldShowMilitaryStep` flag is set. The module also has the watcher that
  sets the flag from `militaryStatus`, the default initial values (an object
  spread over all five steps' initial values), and the callback props the form
  passes to MultiStepForm. `RegistrationFlow` composes the two components over
  one Formik bag.
- **Select** (`select.dfy`, module `SelectField`). The mapping between option
  objects and the strings stored in the form: which options are shown as chosen
  (`find` for a single select, `filter` for a multi select), what a change or a
  blur writes into the form, and the `hasErrors` flag.
- **The Formik bag** (`formik.dfy`, module `Formik`). The values, touched and
  errors maps and the `isSubmitting` flag, with the bag operations the
  components call. Formik itself is not part of this model.

Asynchronous collaborators are not executed. Each submission takes an
`Outcome` parameter (`Ok | Fail(error)`) that says how the one awaited call
settled: the step's `submitHandler` or `onFinalSubmit`. The form's calls to its
four callbacks (`onStepSubmit`, the step's `submitHandler`, `onFinalSubmit` and
`onFinalSubmitSuccess`) are recorded, in order, in the form's `effects` log. The
Formik bag calls (`setSubmitting`, `resetForm`) are modelled as changes to the
bag's state, and `getErrorMessage` is a function parameter; neither is logged.

The model follows the code on these points:

- `stepNumber` is never clamped when the step list shrinks. `ReceiveSteps`
  replaces the list and leaves the index as it is, so the index bound is a
  precondition (`Valid()`), not something the form restores.
- A successful final submission resets only the Formik values, touched and
  errors. It does not reset `stepNumber`.
- Values are not merged by the submit callback; Formik owns them.
- The step observer does not drive the conditional step. RegistrationForm passes
  its watcher as `onAllButLastStepSubmit` (components/RegistrationForm/RegistrationForm.js:73).
  MultiStepForm reads only `onStepSubmit`, which defaults to a no-op. So the
  resolved observer is the no-op (`StepObserverIsNoop`). `RegistrationFlow.Submit`
  proves that the military flag and the four-step list stay as they were.
  The watcher itself (`OnValueChange`) is modelled in full.
- `data[key][0]` on an empty message list reads as `undefined` in a template
  literal, so the model writes the text `undefined` rather than requiring
  non-empty lists.
- The multi select stores an array of strings (`onChangeMulti`) although the
  prop types describe an array of options. The model follows the code.
  `getValueFromMulti` calls `includes` on the field value: on an array that is
  membership, and on a string it is a substring search. Both are modelled.

## Model

| member | source | states |
|---|---|---|
| MultiStep.MultiStepForm.constructor | components/Form/MultiStepForm.js:32-35 | the form starts on step 0 with an empty error message and an empty call log |
| MultiStep.StepObserverProp | components/Form/MultiStepForm.js:21-30 | a passed `onStepSubmit` prop is the observer the form reads; without one the observer is the no-op |
| MultiStep.MultiStepForm.OffersPrevious | components/Form/MultiStepForm.js:146 | on a valid index the Previous control is offered exactly when the index is not 0, and then stepping back stays at or above 0 |
| MultiStep.MultiStepForm.IsLastStep | components/Form/MultiStepForm.js:37-42 | on a valid index, the step is last exactly when no step follows it; being last means the index is the list length minus one |
| MultiStep.MultiStepForm.ShowNextStep | components/Form/MultiStepForm.js:44-49 | called only off the last step; the index grows by exactly one, nothing else changes, and a valid index stays valid |
| MultiStep.MultiStepForm.ShowPreviousStep | components/Form/MultiStepForm.js:51-56 | called only off the first step; the index drops by exactly one and a valid index stays valid (never negative) |
| MultiStep.MultiStepForm.ReceiveSteps | components/Form/MultiStepForm.js:17-25 | a new steps prop replaces the list and leaves the index unclamped |
| MultiStep.MultiStepForm.HandleError | components/Form/MultiStepForm.js:58-78 | the error message becomes the normalised message of the error and nothing else changes |
| MultiStep.MultiStepForm.HandleSubmit | components/Form/MultiStepForm.js:80-115 | the error message is cleared first; onStepSubmit is called once with the values on every path; on the last step onFinalSubmit is called, and on success the form is reset and onFinalSubmitSuccess is called with the submitted values, otherwise the message is set; off the last step that step's submitHandler is called, and on success the index advances by one, otherwise it stays and the message is set; isSubmitting ends false; the index stays valid |
| ErrorNormalizer.HasErrorKey | components/Form/MultiStepForm.js:62 | the body counts as an `error` body exactly when `error` is among its keys |
| ErrorNormalizer.SingleFieldMessage | components/Form/MultiStepForm.js:62-70 | a body with one field whose key is not `error` is shown as that field's single line |
| ErrorNormalizer.Normalize | components/Form/MultiStepForm.js:58-78 | a body without an `error` key gives the field-error message; an absent body or one with an `error` key gives the generic extractor's message |
| ErrorNormalizer.Capitalize | components/Form/MultiStepForm.js:67 | capitalising keeps the length and adds no newline |
| ErrorNormalizer.SplitJoinRoundTrip | components/Form/MultiStepForm.js:65-72 | joining newline-free lines with `\n` and splitting at newlines gives the lines back |
| ErrorNormalizer.FieldErrorsGiveOneLinePerKey | components/Form/MultiStepForm.js:62-74 | a non-empty field-error map with no `error` key and no newlines gives exactly one line per key, in key order, each the capitalised key, a space, the first message and a full stop |
| ErrorNormalizer.EmailTakenMessage | components/Form/MultiStepForm.js:69-70 | `{email: ["has already been taken"]}` is shown as `Email has already been taken.` |
| ErrorNormalizer.UsernameInvalidMessage | components/Form/MultiStepForm.js:65-74 | `{username: ["is invalid"]}` is shown as `Username is invalid.` |
| ErrorNormalizer.ErrorKeyUsesGenericMessage | components/Form/MultiStepForm.js:75-77 | the body `{error: ["Unauthorized"]}` is shown with the generic extractor's message |
| Registration.MergeAll | components/RegistrationForm/RegistrationForm.js:19-28 | spreading objects left to right: every key of the last object is present with the last object's value; no objects give the empty map |
| Registration.DefaultInitialValues | components/RegistrationForm/RegistrationForm.js:20-26 | Technology's initial values, spread last, are all present with Technology's values |
| Registration.NextMilitaryFlag | components/RegistrationForm/RegistrationForm.js:34-46 | an empty military status keeps the current flag; any other status (including a missing one) sets the flag exactly when it is `veteran` or `current` |
| Registration.Steps | components/RegistrationForm/RegistrationForm.js:61-67 | the list has 5 steps with the flag and 4 without; the first three are Initial, PersonalDetails and MilitaryStatus; Technology is last; MilitaryDetails appears iff the flag is set, and then at index 3; no step appears twice |
| Registration.StepsPrefixStable | components/RegistrationForm/RegistrationForm.js:61-67 | the steps at indices 0 to 2 are the same whichever value the flag has |
| Registration.MergeAllKeys | components/RegistrationForm/RegistrationForm.js:20-26 | a key is in the spread result iff some spread map has it |
| Registration.MergeAllLastWins | components/RegistrationForm/RegistrationForm.js:20-26 | on a shared key, the value of the last map that has the key wins |
| Registration.DefaultInitialValuesKeys | components/RegistrationForm/RegistrationForm.js:19-28 | the default initial values have exactly the keys some step's initial values declare |
| Registration.DefaultInitialValuesLastStepWins | components/RegistrationForm/RegistrationForm.js:19-28 | each default value is that of the last step, in the order Initial, PersonalDetails, MilitaryStatus, MilitaryDetails, Technology, that declares the key |
| Registration.MilitaryFlagIgnoresCurrent | components/RegistrationForm/RegistrationForm.js:39-46 | unless the status is the empty string, the new flag depends only on the values and is set iff the status is `veteran` or `current` |
| Registration.MilitaryFlagIdempotent | components/RegistrationForm/RegistrationForm.js:34-46 | running the watcher twice on the same values equals running it once |
| Registration.StepObserverIsNoop | components/RegistrationForm/RegistrationForm.js:73 | the watcher is passed to the form, but under a name the form does not read, so the form's step observer is the no-op |
| Registration.RegistrationForm.constructor | components/RegistrationForm/RegistrationForm.js:30-32 | the military flag starts false |
| Registration.RegistrationForm.ShowMilitaryStep | components/RegistrationForm/RegistrationForm.js:48-50 | the flag becomes true |
| Registration.RegistrationForm.HideMilitaryStep | components/RegistrationForm/RegistrationForm.js:52-54 | the flag becomes false |
| Registration.RegistrationForm.OnValueChange | components/RegistrationForm/RegistrationForm.js:34-46 | an empty-string status leaves the flag; otherwise the flag is set iff the status is `veteran` or `current` (a missing field clears it) |
| Registration.RegistrationForm.Invoke | components/RegistrationForm/RegistrationForm.js:70-78 | invoking the watcher sets the flag as the watcher does, and invoking any other callback leaves the flag unchanged |
| Registration.RegistrationFlow.constructor | components/RegistrationForm/RegistrationForm.js:56-79 | the first render shows the four steps without MilitaryDetails, on step 0, with an empty message and an empty call log; the bag and the registration form both take the given initial values, the bag starts untouched, error-free and not submitting, and the form uses the given error extractor |
| Registration.RegistrationFlow.Submit | components/RegistrationForm/RegistrationForm.js:70-78 | a submission through the wired components never changes the military flag or the step list, keeps the index valid and ends with isSubmitting false; the index advances by one exactly when a non-last step succeeded; the error message is cleared on success and is the normalised error on failure; the call log gains the observer call, then the step handler or the final submission and, on final success, the success callback; the values, touched and errors are reset only by a successful final submission and kept on every other path |
| Registration.RegistrationFlow.Previous | components/Form/MultiStepForm.js:146-154 | the Previous control, offered only past the first step, moves back one step, keeps the index valid and changes nothing but the index |
| SelectField.GetValueFromSingle | components/Form/Select/Select.js:76-80 | returns the first option, in option order, whose value strictly equals the field value, and nothing iff no option matches |
| SelectField.GetValueFromMulti | components/Form/Select/Select.js:87-91 | the result is a subsequence of the options and holds exactly the options whose value the field value includes, each as many times as it occurs among the options |
| SelectField.OptionValues | components/Form/Select/Select.js:68 | the stored values have the selection's length and order, each the value of the option at that position |
| SelectField.SingleRoundTrip | components/Form/Select/Select.js:54-80 | with distinct option values, storing an option's value and reading it back shows that option |
| SelectField.MultiFilterIsSelection | components/Form/Select/Select.js:87-91 | over distinct options, filtering by a value list picks exactly a given subsequence when membership agrees option by option |
| SelectField.MultiRoundTrip | components/Form/Select/Select.js:65-91 | with distinct option values, storing a selection taken in option order and reading it back shows exactly that selection |
| SelectField.HasErrors | components/Form/Select/Select.js:113 | true iff an error is recorded for the field and it is a non-empty string |
| SelectField.DisplayedValue | components/Form/Select/Select.js:115-116 | the multi reading is used iff `isMulti`, the single reading otherwise |
| SelectField.OnChangeSingle | components/Form/Select/Select.js:54-58 | only the field's own entry changes, to the selected option's value |
| SelectField.OnChangeMulti | components/Form/Select/Select.js:65-69 | only the field's own entry changes, to the selected options' values in selection order |
| SelectField.OnChange | components/Form/Select/Select.js:115-117 | the change handler is chosen by `isMulti` alone and writes as the chosen handler does |
| SelectField.HandleBlur | components/Form/Select/Select.js:93-97 | only the field's touched entry changes, to true |
| Formik.FormikBag.SetSubmitting | components/Form/MultiStepForm.js:94 | the submitting flag takes the given value |
| Formik.FormikBag.ResetForm | components/Form/MultiStepForm.js:95 | the values return to the initial values, touched fields and errors are cleared, submitting ends |
| Formik.FormikBag.SetFieldValue | components/Form/Select/Select.js:57 | only the named field's value changes |
| Formik.FormikBag.SetFieldTouched | components/Form/Select/Select.js:96 | only the named field's touched entry changes |

## Left out

- Rendering: all `render` methods, JSX, Alert, Button, Label, the themed select
  widget and CSS. Kept from render: the step list and props (RegistrationForm),
  the Previous-button gate (MultiStepForm) and `hasErrors`/value/handler choice (Select).
- Formik's own behaviour beyond the bag operations used here. Per-step
  validation schemas, validation before submit, re-validation after
  `setFieldValue`, and touching every field on submit are not modelled. Before
  calling the submit callback, `RegistrationFlow.Submit` only sets `isSubmitting`.
- Asynchrony and React scheduling. Awaited calls are replaced by the `Outcome`
  parameter, and every `setState` is an immediate assignment. `RegistrationFlow.Submit`
  delivers the resolved step observer after the submit callback rather than
  inside it; with the no-op observer the order makes no difference.
- The disabled-while-submitting buttons, the UI's single-flight gate.
- The final network call `login`: only how it settles is modelled.
- Helpers that are not part of this model: `getErrorMessage` is passed in as a
  function; `insertIf` is assumed to give `[x]` or `[]`; `validStep` is not
  modelled; the steps' definitions, including their own initial values, are not
  part of this model, so `DefaultInitialValues` takes them as a function.
- ErrorNormalizer.Capitalize: `capitalizeFirstLetter` is not shown; this model
  assumes it upper-cases the first character when that is an ASCII letter and
  keeps every other character.
- Response bodies that are not an object of message arrays (a string body, or
  an `error` key holding a non-array value) are not modelled. An empty string
  under `error` would be falsy in JavaScript, so it would take the field-error
  branch.
- Key order of the response body is taken as given. JavaScript enumerates
  integer-like keys first.
- A step without a `submitHandler`, and an index outside the step list, would
  throw inside the `try` and end in the error path. The model instead requires
  a valid index, and treats steps as opaque values.
- `onChangeSingle` with an empty selection: a cleared widget hands over `null`.
- Redux `connect`, the screen-size selector and the unused `isMobileView` prop;
  the job-listing page.
