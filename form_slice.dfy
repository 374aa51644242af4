/**
 * The renderer-side Redux slice (src/store/slices/formSlice.js): the
 * fetched schema, the responses and errors objects, and the loading and
 * submitting flags driven by the two request thunks. The reducers change
 * the slice in place, so the slice is a class; the request itself is not
 * modelled, only the three transitions of each thunk.
 */
module FormSlice {
  import opened Js
  import opened FormModel
  import Dict

  /** `if (errors[fieldName]) delete errors[fieldName]`: only a truthy (non-empty) message is deleted. */
  function ClearFieldError(errors: Dict.Dict<string>, fieldName: string): (r: Dict.Dict<string>)
    ensures |r.entries| <= |errors.entries|
  {
    var e := Dict.Get(errors, fieldName);
    if e.Some? && e.value != "" then Dict.Remove(errors, fieldName) else errors
  }

  /** After an answer no message remains for that field, and every other field keeps its message. */
  lemma ClearFieldErrorGet(errors: Dict.Dict<string>, fieldName: string, k: string)
    ensures k != fieldName ==> Dict.Get(ClearFieldError(errors, fieldName), k) == Dict.Get(errors, k)
    ensures Dict.Get(ClearFieldError(errors, fieldName), fieldName) in {None, Some("")}
  {
    var e := Dict.Get(errors, fieldName);
    if e.Some? && e.value != "" {
      Dict.RemoveGet(errors, fieldName, k);
      Dict.RemoveGet(errors, fieldName, fieldName);
    }
  }

  /** `state.responses[fieldName] = value`: the answer is stored and no other answer changes. */
  lemma StoreResponseGet(responses: Dict.Dict<Value>, fieldName: string, value: Value, k: string)
    ensures Dict.Get(Dict.Put(responses, fieldName, value), k) == if k == fieldName then Some(value) else Dict.Get(responses, k)
  {
    Dict.PutGet(responses, fieldName, value, k);
  }

  class FormStore {
    var schema: Option<Schema>
    var responses: Dict.Dict<Value>
    var errors: Dict.Dict<string>
    var loading: bool
    var submitting: bool
    var submitSuccess: bool
    var error: Value

    /** A submission is never both in flight and reported successful. */
    predicate Valid()
      reads this
    {
      !(submitting && submitSuccess)
    }

    /** The initial state. */
    constructor ()
      ensures Valid()
      ensures schema.None? && responses == Dict.Empty() && errors == Dict.Empty()
      ensures !loading && !submitting && !submitSuccess && error.Null?
    {
      schema, responses, errors := None, Dict.Empty(), Dict.Empty();
      loading, submitting, submitSuccess := false, false, false;
      error := Null;
    }

    /** `updateResponse({fieldName, value})`. */
    method UpdateResponse(fieldName: string, value: Value)
      requires Valid()
      modifies this
      ensures Valid()
      ensures responses == Dict.Put(old(responses), fieldName, value)
      ensures errors == ClearFieldError(old(errors), fieldName)
      ensures schema == old(schema) && loading == old(loading) && submitting == old(submitting)
      ensures submitSuccess == old(submitSuccess) && error == old(error)
    {
      responses := Dict.Put(responses, fieldName, value);
      errors := ClearFieldError(errors, fieldName);
    }

    /** `setErrors(newErrors)`: the whole errors object is replaced. */
    method SetErrors(newErrors: Dict.Dict<string>)
      requires Valid()
      modifies this
      ensures Valid()
      ensures errors == newErrors
      ensures schema == old(schema) && responses == old(responses) && loading == old(loading)
      ensures submitting == old(submitting) && submitSuccess == old(submitSuccess) && error == old(error)
    {
      errors := newErrors;
    }

    /** `resetForm()`: answers, errors and outcome are cleared; the schema and flags stay. */
    method ResetForm()
      requires Valid()
      modifies this
      ensures Valid()
      ensures responses == Dict.Empty() && errors == Dict.Empty() && !submitSuccess && error.Null?
      ensures schema == old(schema) && loading == old(loading) && submitting == old(submitting)
    {
      responses, errors := Dict.Empty(), Dict.Empty();
      submitSuccess := false;
      error := Null;
    }

    /** `fetchFormSchema.pending`. */
    method FetchPending()
      requires Valid()
      modifies this
      ensures Valid()
      ensures loading && error.Null?
      ensures schema == old(schema) && responses == old(responses) && errors == old(errors)
      ensures submitting == old(submitting) && submitSuccess == old(submitSuccess)
    {
      loading := true;
      error := Null;
    }

    /** `fetchFormSchema.fulfilled`: the payload becomes the schema. */
    method FetchFulfilled(payload: Schema)
      requires Valid()
      modifies this
      ensures Valid()
      ensures !loading && schema == Some(payload)
      ensures error == old(error) && responses == old(responses) && errors == old(errors)
      ensures submitting == old(submitting) && submitSuccess == old(submitSuccess)
    {
      loading := false;
      schema := Some(payload);
    }

    /** `fetchFormSchema.rejected`: the rejection value becomes the error. */
    method FetchRejected(reason: Value)
      requires Valid()
      modifies this
      ensures Valid()
      ensures !loading && error == reason
      ensures schema == old(schema) && responses == old(responses) && errors == old(errors)
      ensures submitting == old(submitting) && submitSuccess == old(submitSuccess)
    {
      loading := false;
      error := reason;
    }

    /** `submitFormResponse.pending`. */
    method SubmitPending()
      requires Valid()
      modifies this
      ensures Valid()
      ensures submitting && !submitSuccess && error.Null?
      ensures schema == old(schema) && responses == old(responses) && errors == old(errors) && loading == old(loading)
    {
      submitting, submitSuccess := true, false;
      error := Null;
    }

    /** `submitFormResponse.fulfilled`. */
    method SubmitFulfilled()
      requires Valid()
      modifies this
      ensures Valid()
      ensures !submitting && submitSuccess
      ensures error == old(error) && schema == old(schema) && responses == old(responses)
      ensures errors == old(errors) && loading == old(loading)
    {
      submitting, submitSuccess := false, true;
    }

    /** `submitFormResponse.rejected`. */
    method SubmitRejected(reason: Value)
      requires Valid()
      modifies this
      ensures Valid()
      ensures !submitting && !submitSuccess && error == reason
      ensures schema == old(schema) && responses == old(responses) && errors == old(errors) && loading == old(loading)
    {
      submitting, submitSuccess := false, false;
      error := reason;
    }
  }
}
