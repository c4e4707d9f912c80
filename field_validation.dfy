/**
 * How the test-data models validate a field and report failures: a field's
 * declared constraints (`min_length`, `max_length`, `pattern`, `Literal`) are
 * checked first, then its validator; building a model reports every failing
 * field, in declaration order.
 */
module FieldValidation {
  import opened Wrappers
  import opened Text

  /** Why a field was rejected. */
  datatype Reason =
    | TooShort         // below `min_length`
    | TooLong          // above `max_length`
    | Blank            // the validator's `not v or not v.strip()`
    | PatternMismatch  // `pattern` does not match
    | NotAllowed       // not one of the `Literal` values
    | YearTooEarly     // the expiry-year validator's `year < 2024`

  datatype FieldError = FieldError(field: string, reason: Reason)

  /** The error entry a field contributes: none when it was accepted. */
  function ErrorsOf<T>(field: string, r: Result<T, Reason>): (errors: seq<FieldError>)
    ensures r.Success? ==> errors == []
    ensures r.Failure? ==> errors == [FieldError(field, r.error)]
  {
    if r.Failure? then [FieldError(field, r.error)] else []
  }

  /** The names of the fields an error list reports. */
  function FailedFields(errors: seq<FieldError>): set<string>
  {
    set e | e in errors :: e.field
  }

  lemma FailedFieldsAppend(a: seq<FieldError>, b: seq<FieldError>)
    ensures FailedFields(a + b) == FailedFields(a) + FailedFields(b)
  {
    assert forall e :: e in a + b <==> e in a || e in b;
  }

  /** A field contributes its own name exactly when it was rejected. */
  lemma FailedFieldsOf<T>(field: string, r: Result<T, Reason>)
    ensures FailedFields(ErrorsOf(field, r)) == If(r.Failure?, field)
  {
    if r.Failure? {
      assert FieldError(field, r.error) in ErrorsOf(field, r);
    }
  }

  /** The name if the condition holds. */
  function If(cond: bool, name: string): set<string>
  {
    if cond then {name} else {}
  }

  /** A validator that strips the value and rejects it when nothing is left
      (the `validate_city` and login `validate_not_empty` validators). */
  function StrippedNonBlank(v: string): (r: Result<string, Reason>)
    ensures r.Success? <==> !AllSpace(v)
    ensures r.Success? ==> r.value == Strip(v) && r.value != [] && IsStripped(r.value)
    ensures r.Failure? ==> r.error == Blank
  {
    if Strip(v) == [] then Failure(Blank) else Success(Strip(v))
  }

  /** A `min_length=1` field with the same stripping validator: the empty string
      fails the constraint, a whitespace-only one the validator. */
  function MinLengthStrippedNonBlank(v: string): (r: Result<string, Reason>)
    ensures r.Success? <==> !AllSpace(v)
    ensures r.Success? ==> r.value == Strip(v) && r.value != [] && IsStripped(r.value)
    ensures r.Failure? ==> r.error == if v == [] then TooShort else Blank
  {
    if |v| < 1 then Failure(TooShort) else StrippedNonBlank(v)
  }

  /** A stored, stripped value passes the validator again unchanged. */
  lemma StrippedValueRevalidates(v: string)
    requires StrippedNonBlank(v).Success?
    ensures StrippedNonBlank(StrippedNonBlank(v).value) == StrippedNonBlank(v)
    ensures MinLengthStrippedNonBlank(StrippedNonBlank(v).value) == StrippedNonBlank(v)
  {
    StripIdempotent(v);
  }
}
