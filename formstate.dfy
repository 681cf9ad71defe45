/**
 * The generic form state (src/composables/useFormState.ts): field data, a
 * per-field error map, one server error and a loading flag, with the submit
 * sequence, the reset, and the two pure helpers for messages and errors.
 */
module FormState {
  import opened Js

  const GenericFailure := "Произошла ошибка"
  const UnknownFailure := "Произошла неизвестная ошибка"

  /**
   * `getErrorMessage`: an error carrying a response gives its server message
   * or a fixed text; otherwise an `Error` gives its message, a string itself,
   * and anything else a second fixed text.
   */
  function GetErrorMessage(e: Thrown): (m: string)
    ensures e.AxiosFailure? && e.response.Some? ==> m == OrElse(ServerMessage(e), GenericFailure)
    ensures (e.ErrorValue? || (e.AxiosFailure? && e.response.None?)) ==> Some(m) == MessageField(Some(e))
    ensures e.StringValue? ==> m == e.text
    ensures e.OtherValue? ==> m == UnknownFailure
  {
    match e
    case AxiosFailure(Some(response), _, _) => if Truthy(response.message) then response.message.value else GenericFailure
    case AxiosFailure(None, _, message) => message
    case ErrorValue(message) => message
    case StringValue(text) => text
    case OtherValue => UnknownFailure
  }

  /** A truthy server message always wins, and the message is empty only when the thrown value's own text is. */
  lemma ErrorMessageSources(e: Thrown)
    ensures Truthy(ServerMessage(e)) ==> GetErrorMessage(e) == ServerMessage(e).value
    ensures GetErrorMessage(e) == "" ==>
      (e.StringValue? && e.text == "") || (MessageField(Some(e)) == Some("") && ServerMessage(e).None? && StatusOf(e).None?)
  {
  }

  /** `hasErrors`: some field error is not the empty string, or the server error is truthy. */
  predicate HasErrorsOf(errors: map<string, string>, serverError: Option<string>)
  {
    (exists f :: f in errors && errors[f] != "") || Truthy(serverError)
  }

  /** What `validate(data)` did: resolved with a truth value, or rejected. */
  datatype ValidateResult = Checked(isValid: bool) | ValidateThrew(error: Thrown)

  /** The callbacks `handleSubmit` invokes, in order, with their arguments. */
  datatype Call<T, R> = SubmitCalled(data: map<string, T>) | SuccessCalled(result: R) | ErrorCalled(error: Thrown)

  class Form<T> {
    const initialData: map<string, T>
    /** `Object.keys(options.initialData)` */
    const initialKeys: seq<string>
    var data: map<string, T>
    var isLoading: bool
    var errors: map<string, string>
    var serverError: Option<string>

    ghost predicate Valid()
      reads this
    {
      forall k :: k in initialData <==> k in initialKeys
    }

    /** `useFormState(options)`: data is a copy of the initial data, nothing loading, no errors. */
    constructor (initial: map<string, T>, keys: seq<string>)
      requires forall k :: k in initial <==> k in keys
      ensures Valid() && initialData == initial && initialKeys == keys
      ensures data == initial && !isLoading && errors == map[] && serverError == None
      ensures !HasErrors()
    {
      initialData := initial;
      initialKeys := keys;
      data := initial;
      isLoading := false;
      errors := map[];
      serverError := None;
    }

    /** `hasErrors` */
    predicate HasErrors()
      reads this
    {
      HasErrorsOf(errors, serverError)
    }

    /** `setFieldError(field, message)`: only that field's error changes. */
    method SetFieldError(field: string, message: string)
      modifies this`errors
      ensures errors == old(errors)[field := message]
      ensures message != "" ==> HasErrors()
    {
      errors := errors[field := message];
      assert field in errors && errors[field] == message;
    }

    /** `setServerError(message)` */
    method SetServerError(message: Option<string>)
      modifies this`serverError
      ensures serverError == message
    {
      serverError := message;
    }

    /**
     * `resetForm`: every key of the initial data gets its initial value back
     * (other keys of `data` stay), errors and server error are cleared and
     * nothing is loading.
     */
    method ResetForm()
      requires Valid()
      modifies this`data, this`errors, this`serverError, this`isLoading
      ensures Valid()
      ensures data == old(data) + initialData
      ensures errors == map[] && serverError == None && !isLoading
      ensures !HasErrors()
    {
      var i := 0;
      while i < |initialKeys|
        invariant 0 <= i <= |initialKeys|
        invariant forall k :: k in data <==> k in old(data) || k in initialKeys[..i]
        invariant forall k :: k in data ==> data[k] == if k in initialKeys[..i] then initialData[k] else old(data)[k]
      {
        var key := initialKeys[i];
        assert initialKeys[..i + 1] == initialKeys[..i] + [key];
        data := data[key := initialData[key]];
        i := i + 1;
      }
      assert initialKeys[..i] == initialKeys;
      errors := map[];
      serverError := None;
      isLoading := false;
    }

    /**
     * `handleSubmit`: clears the server error; when a validator is given and
     * does not pass, stops (rethrowing if it threw) without touching the
     * loading flag; otherwise submits, reports to the callbacks that are
     * given, stores the message of a failure, and always ends not loading.
     */
    method HandleSubmit<R>(validate: Option<map<string, T> -> ValidateResult>,
                           onSubmit: map<string, T> -> Settled<R>,
                           hasOnSuccess: bool, hasOnError: bool)
      returns (r: Settled<Option<R>>, calls: seq<Call<T, R>>)
      modifies this`serverError, this`isLoading
      ensures var d := old(data);
        && (validate.Some? && validate.value(d) == Checked(false) ==>
              r == Resolved(None) && calls == [] && serverError == None && isLoading == old(isLoading))
        && (validate.Some? && validate.value(d).ValidateThrew? ==>
              r == Rejected(validate.value(d).error) && calls == [] && serverError == None && isLoading == old(isLoading))
        && (validate.None? || validate.value(d) == Checked(true) ==>
              && !isLoading
              && (onSubmit(d).Resolved? ==>
                    && r == Resolved(Some(onSubmit(d).value))
                    && calls == [SubmitCalled(d)] + (if hasOnSuccess then [SuccessCalled(onSubmit(d).value)] else [])
                    && serverError == None)
              && (onSubmit(d).Rejected? ==>
                    && r == Rejected(onSubmit(d).error)
                    && calls == [SubmitCalled(d)] + (if hasOnError then [ErrorCalled(onSubmit(d).error)] else [])
                    && serverError == Some(GetErrorMessage(onSubmit(d).error))))
    {
      serverError := None;
      calls := [];
      if validate.Some? {
        var checked := validate.value(data);
        match checked {
          case ValidateThrew(e) =>
            return Rejected(e), calls;
          case Checked(isValid) =>
            if !isValid {
              return Resolved(None), calls;
            }
        }
      }
      isLoading := true;
      calls := calls + [SubmitCalled(data)];
      var result := onSubmit(data);
      match result {
        case Resolved(value) =>
          if hasOnSuccess {
            calls := calls + [SuccessCalled(value)];
          }
          r := Resolved(Some(value));
        case Rejected(e) =>
          serverError := Some(GetErrorMessage(e));
          if hasOnError {
            calls := calls + [ErrorCalled(e)];
          }
          r := Rejected(e);
      }
      isLoading := false;
    }
  }

  /** A second `resetForm` leaves the form exactly as the first one did: data, errors, server error and loading flag. */
  method ResetTwice<T>(f: Form<T>)
    requires f.Valid()
    modifies f`data, f`errors, f`serverError, f`isLoading
    ensures f.data == old(f.data) + f.initialData
    ensures f.errors == map[] && f.serverError == None && !f.isLoading
  {
    f.ResetForm();
    ghost var once := (f.data, f.errors, f.serverError, f.isLoading);
    f.ResetForm();
    assert f.data == once.0 + f.initialData;
    assert once.0 + f.initialData == once.0;
    assert (f.data, f.errors, f.serverError, f.isLoading) == once;
  }
}
