/**
 * The select field's bridge between option objects and the string values the
 * form stores: which options are shown as chosen for a field value, and what a
 * selection, a blur and the error flag do to the shared form state.
 */
module SelectField {
  import opened Options
  import opened Formik

  datatype SelectOption = SelectOption(caption: string, value: string)  // the `label` and `value` keys

  /** The Formik field prop: the field's name and its current value. */
  datatype Field = Field(name: string, value: FieldValue)

  /** `s.includes(x)` on a string: `x` occurs in `s` as a contiguous piece. */
  predicate Contains(s: string, x: string)
    decreases |s|
  {
    x <= s || (|s| > 0 && Contains(s[1..], x))
  }

  /** `fieldValue.includes(x)`: membership for an array, substring search for a string. */
  predicate Includes(fieldValue: FieldValue, x: string) {
    match fieldValue
    case List(items) => x in items
    case Str(s) => Contains(s, x)
  }

  /** `option.value === fieldValue`: strict equality never holds against an array. */
  predicate Matches(option: SelectOption, fieldValue: FieldValue) {
    fieldValue == Str(option.value)
  }

  /** The options shown as chosen by a single select: the first whose value is the field's. */
  function GetValueFromSingle(options: seq<SelectOption>, field: Field): (r: Option<SelectOption>)
    ensures r.None? <==> forall i :: 0 <= i < |options| ==> !Matches(options[i], field.value)
    ensures r.Some? ==> exists i :: 0 <= i < |options| && options[i] == r.value && Matches(r.value, field.value) &&
                                     forall j :: 0 <= j < i ==> !Matches(options[j], field.value)
  {
    if |options| == 0 then None
    else if Matches(options[0], field.value) then Some(options[0])
    else
      var r := GetValueFromSingle(options[1..], field);
      r
  }

  /** `a` is `b` with some elements left out, the rest kept in order. */
  predicate IsSubsequence<T(==)>(a: seq<T>, b: seq<T>)
    decreases |b|
  {
    |a| == 0 || (|b| > 0 && if a[0] == b[0] then IsSubsequence(a[1..], b[1..]) else IsSubsequence(a, b[1..]))
  }

  lemma {:induction false} SubsequenceMembers<T>(a: seq<T>, b: seq<T>, x: T)
    requires IsSubsequence(a, b) && x in a
    ensures x in b
    decreases |b|
  {
    if a[0] == b[0] {
      if x != a[0] {
        assert x in a[1..];
        SubsequenceMembers(a[1..], b[1..], x);
      }
    } else {
      SubsequenceMembers(a, b[1..], x);
    }
  }

  /** The options shown as chosen by a multi select: those whose value the field includes. */
  function GetValueFromMulti(options: seq<SelectOption>, field: Field): (r: seq<SelectOption>)
    ensures IsSubsequence(r, options)
    ensures forall o :: o in r <==> o in options && Includes(field.value, o.value)
    ensures forall o :: multiset(r)[o] == if Includes(field.value, o.value) then multiset(options)[o] else 0
  {
    if |options| == 0 then []
    else
      var rest := GetValueFromMulti(options[1..], field);
      assert multiset(options) == multiset{options[0]} + multiset(options[1..]) by {
        assert options == [options[0]] + options[1..];
      }
      assert forall o :: o in options <==> o == options[0] || o in options[1..] by {
        assert options == [options[0]] + options[1..];
      }
      if Includes(field.value, options[0].value) then [options[0]] + rest else rest
  }

  /** `selectedArray.map(item => item.value)`. */
  function OptionValues(selected: seq<SelectOption>): (r: seq<string>)
    ensures |r| == |selected|
    ensures forall i :: 0 <= i < |selected| ==> r[i] == selected[i].value
  {
    if |selected| == 0 then [] else [selected[0].value] + OptionValues(selected[1..])
  }

  /** No two options share a value. */
  predicate DistinctValues(options: seq<SelectOption>) {
    forall i, j :: 0 <= i < j < |options| ==> options[i].value != options[j].value
  }

  /** Storing an option's value and reading it back shows that option again. */
  lemma SingleRoundTrip(options: seq<SelectOption>, name: string, selected: SelectOption)
    requires selected in options && DistinctValues(options)
    ensures GetValueFromSingle(options, Field(name, Str(selected.value))) == Some(selected)
  {
  }

  lemma {:induction false} MultiFilterIsSelection(options: seq<SelectOption>, name: string, values: seq<string>, selected: seq<SelectOption>)
    requires IsSubsequence(selected, options)
    requires forall i, j :: 0 <= i < j < |options| ==> options[i] != options[j]
    requires forall i :: 0 <= i < |options| ==> (options[i].value in values <==> options[i] in selected)
    ensures GetValueFromMulti(options, Field(name, List(values))) == selected
    decreases |options|
  {
    if |options| == 0 {
      return;
    }
    var o, rest := options[0], options[1..];
    assert forall i :: 0 <= i < |rest| ==> rest[i] == options[i + 1];
    if |selected| > 0 && selected[0] == o {
      forall i | 0 <= i < |rest| ensures rest[i].value in values <==> rest[i] in selected[1..] {
        assert rest[i] != o;
        assert selected == [selected[0]] + selected[1..];
      }
      MultiFilterIsSelection(rest, name, values, selected[1..]);
      assert o.value in values;
      assert [selected[0]] + selected[1..] == selected;
    } else {
      assert IsSubsequence(selected, rest);
      if o in selected {
        SubsequenceMembers(selected, rest, o);
      }
      assert o !in selected;
      assert o.value !in values;
      MultiFilterIsSelection(rest, name, values, selected);
    }
  }

  /**
   * Storing the values of a selection taken in option order and reading them
   * back shows exactly that selection again.
   */
  lemma MultiRoundTrip(options: seq<SelectOption>, name: string, selected: seq<SelectOption>)
    requires IsSubsequence(selected, options) && DistinctValues(options)
    ensures GetValueFromMulti(options, Field(name, List(OptionValues(selected)))) == selected
  {
    var values := OptionValues(selected);
    forall i | 0 <= i < |options| ensures options[i].value in values <==> options[i] in selected {
      if options[i].value in values {
        var k :| 0 <= k < |values| && values[k] == options[i].value;
        SubsequenceMembers(selected, options, selected[k]);
        var m :| 0 <= m < |options| && options[m] == selected[k];
        assert options[m].value == options[i].value;
        assert m == i;
      }
      if options[i] in selected {
        var k :| 0 <= k < |selected| && selected[k] == options[i];
        assert values[k] == options[i].value;
      }
    }
    MultiFilterIsSelection(options, name, values, selected);
  }

  /** `Boolean(errors[name])`: a message is recorded for the field and it is not empty. */
  function HasErrors(errors: map<string, string>, name: string): (r: bool)
    ensures r <==> name in errors && |errors[name]| > 0
  {
    Truthy(if name in errors then Some(errors[name]) else None)
  }

  /** JavaScript truthiness of a string that may be `undefined`. */
  predicate Truthy(s: Option<string>) {
    s.Some? && s.value != ""
  }

  datatype SelectValue = One(option: Option<SelectOption>) | Many(options: seq<SelectOption>)

  /** The value shown by the select: which of the two readings applies is decided by `isMulti` alone. */
  function DisplayedValue(isMulti: bool, options: seq<SelectOption>, field: Field): (r: SelectValue)
    ensures r.Many? <==> isMulti
    ensures isMulti ==> r.options == GetValueFromMulti(options, field)
    ensures !isMulti ==> r.option == GetValueFromSingle(options, field)
  {
    if isMulti then Many(GetValueFromMulti(options, field)) else One(GetValueFromSingle(options, field))
  }

  method OnChangeSingle(field: Field, form: FormikBag, selected: SelectOption)
    modifies form`values
    ensures form.values == old(form.values)[field.name := Str(selected.value)]
  {
    form.SetFieldValue(field.name, Str(selected.value));
  }

  method OnChangeMulti(field: Field, form: FormikBag, selectedArray: seq<SelectOption>)
    modifies form`values
    ensures form.values == old(form.values)[field.name := List(OptionValues(selectedArray))]
  {
    form.SetFieldValue(field.name, List(OptionValues(selectedArray)));
  }

  method HandleBlur(field: Field, form: FormikBag)
    modifies form`touched
    ensures form.touched == old(form.touched)[field.name := true]
  {
    form.SetFieldTouched(field.name, true);
  }

  /** What the select widget hands the change handler: one option, or the chosen options in order. */
  datatype Selection = Single(option: SelectOption) | Multi(options: seq<SelectOption>)

  /** The change handler picked by `isMulti`; the widget reports a selection of the matching kind. */
  method OnChange(isMulti: bool, field: Field, form: FormikBag, selection: Selection)
    requires isMulti <==> selection.Multi?
    modifies form`values
    ensures isMulti ==> form.values == old(form.values)[field.name := List(OptionValues(selection.options))]
    ensures !isMulti ==> form.values == old(form.values)[field.name := Str(selection.option.value)]
  {
    if isMulti {
      OnChangeMulti(field, form, selection.options);
    } else {
      OnChangeSingle(field, form, selection.option);
    }
  }
}
