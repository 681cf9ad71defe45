/**
 * The schema-driven form composable (src/composables/useFormState/useFormState.ts):
 * it wraps a validator and submits the form data only when the whole-form
 * validation passes, forwarding the response to an optional success callback
 * and rethrowing a failed submission.
 */
module FormSubmit {
  import opened Js
  import opened Validation

  /** The calls `handleSubmit` makes after validation, in order. */
  datatype Step<T, R> = Submitted(data: T) | Succeeded(response: R)

  /**
   * `handleSubmit()`. `formData` is the ref's current value (None when it is
   * null or undefined) and `submit` what awaiting `submitFunction` on it
   * does. `outcome` is what validating does: the validator was given the
   * data object captured when the composable was set up, which is not the
   * submitted one if the ref has been reassigned since.
   */
  method HandleSubmit<T, R>(v: Validator, formData: Option<T>, outcome: SchemaOutcome,
                            submit: T -> Settled<R>, hasOnSuccess: bool)
    returns (r: Settled<()>, steps: seq<Step<T, R>>)
    modifies v
    ensures formData.None? ==>
      r == Resolved(()) && steps == [] && v.errors == old(v.errors) && v.isValid == old(v.isValid) &&
      v.isDirty == old(v.isDirty)
    ensures formData.Some? ==>
      && v.isDirty && v.isValid == outcome.SchemaPassed?
      && (outcome.SchemaPassed? ==> v.errors == map[])
      && (outcome.SchemaInvalid? ==> v.errors == ErrorMap(outcome.inner))
      && (outcome.SchemaThrew? ==> v.errors == old(v.errors))
    ensures formData.Some? && !outcome.SchemaPassed? ==> r == Resolved(()) && steps == []
    ensures formData.Some? && outcome.SchemaPassed? ==>
      var sent := submit(formData.value);
      && (sent.Resolved? ==>
            r == Resolved(()) &&
            steps == [Submitted(formData.value)] + (if hasOnSuccess then [Succeeded(sent.value)] else []))
      && (sent.Rejected? ==> r == Rejected(sent.error) && steps == [Submitted(formData.value)])
  {
    steps := [];
    if formData.None? {
      return Resolved(()), steps;
    }
    var isFormValid := v.Validate(outcome);
    if !isFormValid {
      return Resolved(()), steps;
    }
    steps := steps + [Submitted(formData.value)];
    var response := submit(formData.value);
    match response {
      case Resolved(value) =>
        if hasOnSuccess {
          steps := steps + [Succeeded(value)];
        }
        r := Resolved(());
      case Rejected(e) =>
        r := Rejected(e);
    }
  }
}
