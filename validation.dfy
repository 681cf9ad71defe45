/**
 * Schema validation state (src/composables/useValidation.ts): an error map,
 * `isValid` and `isDirty`, updated by whole-form and single-field validation.
 * The schema itself is an oracle: each call is given what validating the
 * current data does.
 */
module Validation {
  import opened Js

  /** One inner error of a validation failure: its field path (possibly absent) and message. */
  datatype Issue = Issue(path: Option<string>, message: string)

  /** What `schema.validate(formData, { abortEarly: false })` does. */
  datatype SchemaOutcome =
    | SchemaPassed
    | SchemaInvalid(inner: seq<Issue>)  // a ValidationError with its inner errors
    | SchemaThrew(error: Thrown)        // anything else thrown

  /** What `schema.validateAt(field, formData)` does. */
  datatype FieldOutcome =
    | FieldPassed
    | FieldInvalid(message: string)     // a ValidationError with its message
    | FieldThrew(error: Thrown)

  /** An issue that names path `p` (issues whose path is falsy are skipped). */
  predicate NamesPath(issue: Issue, p: string)
  {
    issue.path == Some(p) && p != ""
  }

  /** The error map built from the inner issues, in order: later issues on a path overwrite earlier ones. */
  function ErrorMap(issues: seq<Issue>): map<string, string>
    decreases |issues|
  {
    if issues == [] then map[]
    else
      var m := ErrorMap(issues[..|issues| - 1]);
      var last := issues[|issues| - 1];
      if Truthy(last.path) then m[last.path.value := last.message] else m
  }

  /** A path is a key of the error map exactly when some issue names it. */
  lemma {:induction false} ErrorMapKeys(issues: seq<Issue>, p: string)
    ensures p in ErrorMap(issues) <==> exists i :: 0 <= i < |issues| && NamesPath(issues[i], p)
    decreases |issues|
  {
    if issues != [] {
      var front := issues[..|issues| - 1];
      ErrorMapKeys(front, p);
      if exists i :: 0 <= i < |front| && NamesPath(front[i], p) {
        var i :| 0 <= i < |front| && NamesPath(front[i], p);
        assert NamesPath(issues[i], p);
      }
      if exists i :: 0 <= i < |issues| && NamesPath(issues[i], p) {
        var i :| 0 <= i < |issues| && NamesPath(issues[i], p);
        if i < |front| {
          assert NamesPath(front[i], p);
        }
      }
    }
  }

  /** The message stored for a path is that of the last issue naming it. */
  lemma {:induction false} ErrorMapLastWins(issues: seq<Issue>, i: int, p: string)
    requires 0 <= i < |issues| && NamesPath(issues[i], p)
    requires forall j :: i < j < |issues| ==> !NamesPath(issues[j], p)
    ensures p in ErrorMap(issues) && ErrorMap(issues)[p] == issues[i].message
    decreases |issues|
  {
    if i < |issues| - 1 {
      var front := issues[..|issues| - 1];
      assert front[i] == issues[i];
      forall j | i < j < |front| ensures !NamesPath(front[j], p) {
        assert front[j] == issues[j];
      }
      ErrorMapLastWins(front, i, p);
    }
  }

  /** The `forEach` over `error.inner` that builds `newErrors`. */
  method BuildErrors(issues: seq<Issue>) returns (newErrors: map<string, string>)
    ensures newErrors == ErrorMap(issues)
  {
    newErrors := map[];
    var i := 0;
    while i < |issues|
      invariant 0 <= i <= |issues|
      invariant newErrors == ErrorMap(issues[..i])
    {
      var err := issues[i];
      assert issues[..i + 1][..i] == issues[..i];
      if Truthy(err.path) {
        newErrors := newErrors[err.path.value := err.message];
      }
      i := i + 1;
    }
    assert issues[..i] == issues;
  }

  /**
   * The errors after a field passes: its message is deleted when truthy, so
   * afterwards the field is present only with an empty message, and every
   * other field keeps its message.
   */
  function ClearedField(errors: map<string, string>, field: string): (r: map<string, string>)
    ensures field in r <==> field in errors && errors[field] == ""
    ensures field in r ==> r[field] == ""
    ensures forall k :: k != field ==> (k in r <==> k in errors)
    ensures forall k :: k in r && k != field ==> r[k] == errors[k]
  {
    if field in errors && errors[field] != "" then errors - {field} else errors
  }

  class Validator {
    var errors: map<string, string>
    var isValid: bool
    var isDirty: bool

    /** `useValidation(schema, formData)`: no errors, not valid, not dirty. */
    constructor ()
      ensures errors == map[] && !isValid && !isDirty
    {
      errors := map[];
      isValid := false;
      isDirty := false;
    }

    /** `validate()`: marks dirty; the result and `isValid` say whether the schema passed. */
    method Validate(outcome: SchemaOutcome) returns (ok: bool)
      modifies this
      ensures isDirty
      ensures ok == outcome.SchemaPassed? && isValid == ok
      ensures outcome.SchemaPassed? ==> errors == map[]
      ensures outcome.SchemaInvalid? ==> errors == ErrorMap(outcome.inner)
      ensures outcome.SchemaThrew? ==> errors == old(errors)
    {
      isDirty := true;
      match outcome {
        case SchemaPassed =>
          errors := map[];
          isValid := true;
          return true;
        case SchemaInvalid(inner) =>
          isValid := false;
          var newErrors := BuildErrors(inner);
          errors := newErrors;
          return false;
        case SchemaThrew(_) =>
          isValid := false;
          return false;
      }
    }

    /**
     * `validateField(field)`: a field failure records that field's message
     * only; a field pass clears its message and then runs the whole
     * validation, whose outcome is `full`.
     */
    method ValidateField(field: string, fieldOutcome: FieldOutcome, full: SchemaOutcome)
      modifies this
      ensures isDirty
      ensures fieldOutcome.FieldInvalid? ==>
        errors == old(errors)[field := fieldOutcome.message] && !isValid
      ensures fieldOutcome.FieldThrew? ==> errors == old(errors) && isValid == old(isValid)
      ensures fieldOutcome.FieldPassed? ==>
        && isValid == full.SchemaPassed?
        && (full.SchemaPassed? ==> errors == map[])
        && (full.SchemaInvalid? ==> errors == ErrorMap(full.inner))
        && (full.SchemaThrew? ==> errors == ClearedField(old(errors), field))
    {
      isDirty := true;
      match fieldOutcome {
        case FieldPassed =>
          if field in errors && errors[field] != "" {
            errors := errors - {field};
          }
          var _ := Validate(full);
        case FieldInvalid(message) =>
          errors := errors[field := message];
          isValid := false;
        case FieldThrew(_) =>
      }
    }

    /** `setDirty()`: only `isDirty` changes. */
    method SetDirty()
      modifies this`isDirty
      ensures isDirty
    {
      isDirty := true;
    }

    /** `reset()`: back to the initial state, whatever came before. */
    method Reset()
      modifies this
      ensures errors == map[] && !isValid && !isDirty
    {
      errors := map[];
      isValid := false;
      isDirty := false;
    }
  }
}
