/** Whole-application validation (backend/app/services/validation_service.py): every
    field of every visible step, in order, validated against the application data. */
module BackendValidation {
  import opened Values
  import opened BackendValidators

  /** One entry of `step.get("fields", [])`: nothing when its conditions fail,
      otherwise the errors of its value in the data (None for an absent key). */
  function FieldEntryErrors(field: Value, data: map<string, Value>, prims: Primitives): Result<seq<FieldError>>
  {
    if !field.Obj? then Failed("AttributeError")
    else
      match ConditionsHold(GetOr(field.members, "conditions", Arr([])), data, prims)
      case Failed(e) => Failed(e)
      case Ok(visible) =>
        if !visible then Ok([])
        else
          match Get(field.members, "field_id")
          case None => Failed("KeyError")
          case Some(fid) =>
            if fid.Arr? || fid.Obj? then Failed("TypeError")
            else FieldErrors(field.members, DataValue(data, fid), prims)
  }

  /** The errors of one step's fields, in field order. */
  function FieldListErrors(fields: seq<Value>, data: map<string, Value>, prims: Primitives): Result<seq<FieldError>>
  {
    Flatten(EntryResults(fields, data, prims))
  }

  /** The results of a step's field entries, in order. */
  function EntryResults(fields: seq<Value>, data: map<string, Value>, prims: Primitives): seq<Result<seq<FieldError>>>
  {
    MapSeq(fields, (f: Value) => FieldEntryErrors(f, data, prims))
  }

  /** One entry of `schema.get("steps", [])`: nothing when its conditions fail,
      otherwise the errors of its fields. */
  function StepErrors(step: Value, data: map<string, Value>, prims: Primitives): Result<seq<FieldError>>
  {
    if !step.Obj? then Failed("AttributeError")
    else
      match ConditionsHold(GetOr(step.members, "conditions", Arr([])), data, prims)
      case Failed(e) => Failed(e)
      case Ok(visible) =>
        if !visible then Ok([])
        else
          match Elements(GetOr(step.members, "fields", Arr([])))
          case None => Failed("TypeError")
          case Some(fields) => FieldListErrors(fields, data, prims)
  }

  /** The results of the steps, in order. */
  function StepResults(steps: seq<Value>, data: map<string, Value>, prims: Primitives): seq<Result<seq<FieldError>>>
  {
    MapSeq(steps, (st: Value) => StepErrors(st, data, prims))
  }

  /** The error list `validate_application` builds: step by step, field by field. */
  function ApplicationErrors(schema: seq<(string, Value)>, data: map<string, Value>, prims: Primitives): Result<seq<FieldError>>
  {
    match Elements(GetOr(schema, "steps", Arr([])))
    case None => Failed("TypeError")
    case Some(steps) => Flatten(StepResults(steps, data, prims))
  }

  /** `validate_application`: `(len(errors) == 0, errors)`. */
  method ValidateApplication(schema: seq<(string, Value)>, data: map<string, Value>, prims: Primitives)
    returns (r: Result<(bool, seq<FieldError>)>)
    ensures r.Ok? <==> ApplicationErrors(schema, data, prims).Ok?
    ensures r.Ok? ==> r.value.1 == ApplicationErrors(schema, data, prims).value
    ensures r.Ok? ==> (r.value.0 <==> r.value.1 == [])
    ensures r.Failed? ==> r.error == ApplicationErrors(schema, data, prims).error
  {
    var steps := Elements(GetOr(schema, "steps", Arr([])));
    if steps.None? { return Failed("TypeError"); }
    ghost var results := StepResults(steps.value, data, prims);
    var errors: seq<FieldError> := [];
    var i := 0;
    while i < |steps.value|
      invariant 0 <= i <= |steps.value|
      invariant Flatten(results[..i]) == Ok(errors)
    {
      FlattenStep(results, i);
      var next := ValidateStep(steps.value[i], data, prims, errors);
      if next.Failed? {
        FlattenStopsAtFailure(results, i + 1);
        return Failed(next.error);
      }
      errors := next.value;
      i := i + 1;
    }
    assert results[..i] == results;
    return Ok((|errors| == 0, errors));
  }

  /** The body of the outer loop: one step's errors extend `errors`. */
  method ValidateStep(step: Value, data: map<string, Value>, prims: Primitives, errors: seq<FieldError>)
    returns (r: Result<seq<FieldError>>)
    ensures r == Concat(Ok(errors), StepErrors(step, data, prims))
  {
    if !step.Obj? { return Failed("AttributeError"); }
    var visible := ConditionsHold(GetOr(step.members, "conditions", Arr([])), data, prims);
    if visible.Failed? { return Failed(visible.error); }
    if !visible.value {
      assert errors + [] == errors;
      return Ok(errors);
    }
    var fields := Elements(GetOr(step.members, "fields", Arr([])));
    if fields.None? { return Failed("TypeError"); }
    r := ValidateFields(fields.value, data, prims, errors);
  }

  /** The inner loop: each field entry's errors extend `errors`. */
  method ValidateFields(fields: seq<Value>, data: map<string, Value>, prims: Primitives, errors: seq<FieldError>)
    returns (r: Result<seq<FieldError>>)
    ensures r == Concat(Ok(errors), FieldListErrors(fields, data, prims))
  {
    ghost var results := EntryResults(fields, data, prims);
    var added: seq<FieldError> := [];
    var j := 0;
    while j < |fields|
      invariant 0 <= j <= |fields|
      invariant Flatten(results[..j]) == Ok(added)
    {
      var fieldErrors := ValidateEntry(fields[j], data, prims);
      assert fieldErrors == results[j];
      if fieldErrors.Failed? {
        FlattenFailsAt(results, j, added);
        return Failed(fieldErrors.error);
      }
      FlattenExtend(results, j, added);
      added := added + fieldErrors.value;
      j := j + 1;
    }
    assert results[..j] == results;
    return Ok(errors + added);
  }

  /** The body of the inner loop: one field entry's errors. */
  method ValidateEntry(field: Value, data: map<string, Value>, prims: Primitives)
    returns (r: Result<seq<FieldError>>)
    ensures r == FieldEntryErrors(field, data, prims)
  {
    if !field.Obj? { return Failed("AttributeError"); }
    var visible := ConditionsHold(GetOr(field.members, "conditions", Arr([])), data, prims);
    if visible.Failed? { return Failed(visible.error); }
    if !visible.value { return Ok([]); }
    var fid := Get(field.members, "field_id");
    if fid.None? { return Failed("KeyError"); }
    if fid.value.Arr? || fid.value.Obj? { return Failed("TypeError"); }
    r := ValidateField(field.members, DataValue(data, fid.value), prims);
  }

  // ---------------------------------------------------------------------------
  // Properties

  /** A step whose conditions fail contributes no errors, whatever its fields. */
  lemma HiddenStepHasNoErrors(step: Value, data: map<string, Value>, prims: Primitives)
    requires step.Obj? && ConditionsHold(GetOr(step.members, "conditions", Arr([])), data, prims) == Ok(false)
    ensures StepErrors(step, data, prims) == Ok([])
  {
  }

  /** A field whose conditions fail contributes no errors, whatever its value. */
  lemma HiddenFieldHasNoErrors(field: Value, data: map<string, Value>, prims: Primitives)
    requires field.Obj? && ConditionsHold(GetOr(field.members, "conditions", Arr([])), data, prims) == Ok(false)
    ensures FieldEntryErrors(field, data, prims) == Ok([])
  {
  }

  /** A visible, required field the data does not hold is validated as None and gets
      exactly its "is required" error. */
  lemma MissingRequiredField(field: Value, data: map<string, Value>, prims: Primitives)
    requires field.Obj? && WellFormed(field.members)
    requires ConditionsHold(GetOr(field.members, "conditions", Arr([])), data, prims) == Ok(true)
    requires Truthy(GetOr(field.members, "required", Bool(false)))
    requires GetOr(field.members, "field_id", Null).Str? && GetOr(field.members, "field_id", Null).s !in data
    ensures FieldEntryErrors(field, data, prims) ==
      Ok([FieldError(GetOr(field.members, "field_id", Null), ExpectedMessage(field.members, " is required", prims))])
  {
    WellFormedLookups(field.members);
    RequiredBlankValue(field.members, Null, prims);
  }

  /** Every error of a field entry comes from a visible field with that id. */
  lemma EntryErrorsFromVisibleField(field: Value, data: map<string, Value>, prims: Primitives, e: FieldError)
    requires FieldEntryErrors(field, data, prims).Ok? && e in FieldEntryErrors(field, data, prims).value
    ensures field.Obj? && ConditionsHold(GetOr(field.members, "conditions", Arr([])), data, prims) == Ok(true)
    ensures e.fieldId == GetOr(field.members, "field_id", Null)
  {
    var value := DataValue(data, Get(field.members, "field_id").value);
    ErrorsNameTheField(field.members, value, prims);
  }

  /** Every error reported names a field that is visible, in a step that is visible. */
  lemma ErrorsComeFromVisibleFields(schema: seq<(string, Value)>, data: map<string, Value>, prims: Primitives,
                                    e: FieldError)
    requires ApplicationErrors(schema, data, prims).Ok? && e in ApplicationErrors(schema, data, prims).value
    ensures var steps := Elements(GetOr(schema, "steps", Arr([]))).value;
      exists i, j :: 0 <= i < |steps| && steps[i].Obj? &&
        ConditionsHold(GetOr(steps[i].members, "conditions", Arr([])), data, prims) == Ok(true) &&
        Elements(GetOr(steps[i].members, "fields", Arr([]))).Some? &&
        0 <= j < |Elements(GetOr(steps[i].members, "fields", Arr([]))).value| &&
        var field := Elements(GetOr(steps[i].members, "fields", Arr([]))).value[j];
        field.Obj? && ConditionsHold(GetOr(field.members, "conditions", Arr([])), data, prims) == Ok(true) &&
        e.fieldId == GetOr(field.members, "field_id", Null)
  {
    var steps := Elements(GetOr(schema, "steps", Arr([]))).value;
    var results := StepResults(steps, data, prims);
    FlattenMembers(results, e);
    var i :| 0 <= i < |results| && results[i].Ok? && e in results[i].value;
    var step := steps[i];
    assert results[i] == StepErrors(step, data, prims);
    var fields := Elements(GetOr(step.members, "fields", Arr([]))).value;
    var entries := EntryResults(fields, data, prims);
    FlattenMembers(entries, e);
    var j :| 0 <= j < |entries| && entries[j].Ok? && e in entries[j].value;
    EntryErrorsFromVisibleField(fields[j], data, prims, e);
  }
}
