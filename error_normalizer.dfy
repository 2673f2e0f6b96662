/**
 * The message construction of the multi-step form's error handler: a failed
 * request whose response body is a field-error map becomes one line per field,
 * any other failure goes to the generic message extractor.
 */
module ErrorNormalizer {
  import opened Options

  /**
   * A response body of field errors: field name to its messages, in the key
   * order of the decoded object.
   */
  type FieldErrors = seq<(string, seq<string>)>

  /** A rejected request: the decoded response body, if any, and the error's own message. */
  datatype ApiError = ApiError(responseData: Option<FieldErrors>, message: string)

  /** `data.error` is truthy: every value of the map is an array, and arrays are truthy. */
  predicate HasErrorKey(data: FieldErrors)
    ensures HasErrorKey(data) <==> "error" in (set i | 0 <= i < |data| :: data[i].0)
  {
    exists i :: 0 <= i < |data| && data[i].0 == "error"
  }

  /** Upper-cases an ASCII letter; other characters are kept. */
  function UpperChar(c: char): char {
    if 'a' <= c <= 'z' then (c as int - 32) as char else c
  }

  /** The string helper that upper-cases the first letter of a field name. */
  function Capitalize(s: string): (r: string)
    ensures |r| == |s|
    ensures '\n' !in s ==> '\n' !in r
  {
    if |s| == 0 then s else [UpperChar(s[0])] + s[1..]
  }

  /** `data[key][0]` interpolated into a template: an empty list reads as "undefined". */
  function FirstMessage(messages: seq<string>): string {
    if |messages| > 0 then messages[0] else "undefined"
  }

  /** One line of the field-error message, e.g. "Email has already been taken." */
  function FieldLine(key: string, messages: seq<string>): string {
    Capitalize(key) + " " + FirstMessage(messages) + "."
  }

  /** `Array.prototype.join('\n')`. */
  function JoinLines(lines: seq<string>): string {
    if |lines| == 0 then ""
    else if |lines| == 1 then lines[0]
    else lines[0] + "\n" + JoinLines(lines[1..])
  }

  /** Splits a string at every newline; the inverse of JoinLines on newline-free lines. */
  function SplitLines(s: string): (r: seq<string>)
    ensures |r| >= 1
    decreases |s|
  {
    if |s| == 0 then [""]
    else if s[0] == '\n' then [""] + SplitLines(s[1..])
    else
      var rest := SplitLines(s[1..]);
      [[s[0]] + rest[0]] + rest[1..]
  }

  /** The lines built from a field-error map, one per key, in key order. */
  function FieldLines(data: FieldErrors): seq<string> {
    seq(|data|, i requires 0 <= i < |data| => FieldLine(data[i].0, data[i].1))
  }

  /** The message shown for a field-error map. */
  function FieldErrorMessage(data: FieldErrors): string {
    JoinLines(FieldLines(data))
  }

  /**
   * The message the form shows for a failed submission. `getErrorMessage` is
   * the repository's generic extractor, which is not part of this model and is
   * passed in.
   */
  function Normalize(error: ApiError, getErrorMessage: ApiError -> string): (r: string)
    ensures error.responseData.Some? && !HasErrorKey(error.responseData.value) ==>
              r == FieldErrorMessage(error.responseData.value)
    ensures error.responseData.None? || HasErrorKey(error.responseData.value) ==>
              r == getErrorMessage(error)
  {
    match error.responseData
    case Some(data) => if !HasErrorKey(data) then FieldErrorMessage(data) else getErrorMessage(error)
    case None => getErrorMessage(error)
  }

  /** No line and no message in the map contains a newline. */
  predicate NewlineFree(data: FieldErrors) {
    forall i :: 0 <= i < |data| ==> '\n' !in data[i].0 && '\n' !in FirstMessage(data[i].1)
  }

  lemma {:induction false} SplitNewlineFree(a: string)
    requires '\n' !in a
    ensures SplitLines(a) == [a]
    decreases |a|
  {
    if |a| > 0 {
      SplitNewlineFree(a[1..]);
      assert [a[0]] + a[1..] == a;
    }
  }

  lemma {:induction false} SplitAfterLine(a: string, b: string)
    requires '\n' !in a
    ensures SplitLines(a + "\n" + b) == [a] + SplitLines(b)
    decreases |a|
  {
    var s := a + "\n" + b;
    if |a| == 0 {
      assert s[0] == '\n' && s[1..] == b;
    } else {
      assert s[0] == a[0] && s[1..] == a[1..] + "\n" + b;
      SplitAfterLine(a[1..], b);
      assert [a[0]] + a[1..] == a;
    }
  }

  /** Splitting the joined lines gives the lines back. */
  lemma {:induction false} SplitJoinRoundTrip(lines: seq<string>)
    requires |lines| > 0
    requires forall i :: 0 <= i < |lines| ==> '\n' !in lines[i]
    ensures SplitLines(JoinLines(lines)) == lines
    decreases |lines|
  {
    if |lines| == 1 {
      SplitNewlineFree(lines[0]);
    } else {
      SplitAfterLine(lines[0], JoinLines(lines[1..]));
      SplitJoinRoundTrip(lines[1..]);
      assert [lines[0]] + lines[1..] == lines;
    }
  }

  /**
   * A field-error map without an `error` key is shown as exactly one line per
   * key, in key order, each its capitalised key, a space, its first message and
   * a full stop.
   */
  lemma FieldErrorsGiveOneLinePerKey(error: ApiError, getErrorMessage: ApiError -> string)
    requires error.responseData.Some? && !HasErrorKey(error.responseData.value)
    requires |error.responseData.value| > 0 && NewlineFree(error.responseData.value)
    ensures var data := error.responseData.value;
            var lines := SplitLines(Normalize(error, getErrorMessage));
            |lines| == |data| &&
            forall i :: 0 <= i < |data| ==>
              lines[i] == Capitalize(data[i].0) + " " + FirstMessage(data[i].1) + "."
  {
    var data := error.responseData.value;
    var lines := FieldLines(data);
    forall i | 0 <= i < |lines| ensures '\n' !in lines[i] {
      assert lines[i] == Capitalize(data[i].0) + " " + FirstMessage(data[i].1) + ".";
    }
    SplitJoinRoundTrip(lines);
  }

  /** A body with a single field other than `error` is shown as that field's one line. */
  lemma SingleFieldMessage(key: string, messages: seq<string>, message: string, getErrorMessage: ApiError -> string)
    requires key != "error"
    ensures Normalize(ApiError(Some([(key, messages)]), message), getErrorMessage) == FieldLine(key, messages)
  {
    var data: FieldErrors := [(key, messages)];
    assert !HasErrorKey(data) by {
      assert forall i :: 0 <= i < |data| ==> data[i].0 == key;
    }
    assert FieldLines(data) == [FieldLine(key, messages)];
  }

  /** The repository's own example: a taken email address. */
  lemma EmailTakenMessage(getErrorMessage: ApiError -> string)
    ensures Normalize(ApiError(Some([("email", ["has already been taken"])]), "Request failed"), getErrorMessage)
            == "Email has already been taken."
  {
    assert "email" != "error" by { assert "email"[1] != "error"[1]; }
    SingleFieldMessage("email", ["has already been taken"], "Request failed", getErrorMessage);
    EmailLine();
  }

  /** The line built for the taken-email example. */
  lemma EmailLine()
    ensures FieldLine("email", ["has already been taken"]) == "Email has already been taken."
  {
    assert "email"[1..] == "mail";
    assert Capitalize("email") == [UpperChar('e')] + "mail";
    assert UpperChar('e') == 'E';
    assert ['E'] + "mail" == "Email";
    assert "Email" + " " + "has already been taken" + "." == "Email has already been taken.";
  }

  /** A body that carries an `error` key goes to the generic extractor. */
  lemma ErrorKeyUsesGenericMessage(getErrorMessage: ApiError -> string)
    ensures var e := ApiError(Some([("error", ["Unauthorized"])]), "Request failed");
            Normalize(e, getErrorMessage) == getErrorMessage(e)
  {
  }

  /** A rejected final submission with an invalid username. */
  lemma UsernameInvalidMessage(getErrorMessage: ApiError -> string)
    ensures Normalize(ApiError(Some([("username", ["is invalid"])]), "Request failed"), getErrorMessage)
            == "Username is invalid."
  {
  }
}
