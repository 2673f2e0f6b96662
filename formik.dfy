/**
 * The part of the Formik form library that the form components consume: the
 * value bag shared by all steps and the "formik bag" operations they call.
 * Formik itself is a library, not part of this model; its bag is modelled as
 * state the components update in place.
 */
module Formik {

  /** A form field holds a string or an array of strings. */
  datatype FieldValue = Str(s: string) | List(items: seq<string>)

  /** Field name to current value. */
  type Values = map<string, FieldValue>

  class FormikBag {
    const initialValues: Values
    var values: Values
    var touched: map<string, bool>
    var errors: map<string, string>
    var isSubmitting: bool

    constructor (initialValues: Values)
      ensures this.initialValues == initialValues && values == initialValues
      ensures touched == map[] && errors == map[] && !isSubmitting
    {
      this.initialValues := initialValues;
      values := initialValues;
      touched := map[];
      errors := map[];
      isSubmitting := false;
    }

    method SetSubmitting(submitting: bool)
      modifies this`isSubmitting
      ensures isSubmitting == submitting
    {
      isSubmitting := submitting;
    }

    /** Restores the values to the initial ones and forgets touched fields and errors. */
    method ResetForm()
      modifies this`values, this`touched, this`errors, this`isSubmitting
      ensures values == initialValues && touched == map[] && errors == map[] && !isSubmitting
    {
      values := initialValues;
      touched := map[];
      errors := map[];
      isSubmitting := false;
    }

    method SetFieldValue(name: string, value: FieldValue)
      modifies this`values
      ensures values == old(values)[name := value]
    {
      values := values[name := value];
    }

    method SetFieldTouched(name: string, isTouched: bool)
      modifies this`touched
      ensures touched == old(touched)[name := isTouched]
    {
      touched := touched[name := isTouched];
    }
  }
}
