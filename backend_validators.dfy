/** The backend's field validator and condition evaluator
    (backend/app/utils/validators.py).  A field definition is the schema's dict; a
    Python exception is a Failed result carrying the exception's name. */
module BackendValidators {
  import opened Values

  /** One entry of the error list: `{"field_id": ..., "message": ...}`. */
  datatype FieldError = FieldError(fieldId: Value, message: Value)

  /** The types that get the length and pattern checks. */
  const StringTypes: set<Value> := {Str("text"), Str("email"), Str("phone"), Str("ssn"), Str("textarea")}

  /** The types that get the numeric checks. */
  const NumericTypes: set<Value> := {Str("number"), Str("currency")}

  /** `field_def.get("validation", {})` */
  function RulesOf(fieldDef: seq<(string, Value)>): Value
  {
    GetOr(fieldDef, "validation", Obj([]))
  }

  /** `validation.get(key)` on a validation dict. */
  function Rule(rules: seq<(string, Value)>, key: string): Value
  {
    GetOr(rules, key, Null)
  }

  /** `f"{field_def['label']}" + suffix` */
  function LabelText(fieldDef: seq<(string, Value)>, suffix: string, prims: Primitives): Result<Value>
  {
    match Get(fieldDef, "label")
    case None => Failed("KeyError")
    case Some(caption) => Ok(Str(PyStr(caption, prims) + suffix))
  }

  /** `validation.get("custom_message", f"{field_def['label']}" + suffix)`: the method is
      looked up first (AttributeError on a validation that is not a dict), then the
      default message is built, which reads the label even when a custom message
      is set. */
  function Message(fieldDef: seq<(string, Value)>, suffix: string, prims: Primitives): Result<Value>
  {
    var rules := RulesOf(fieldDef);
    if !rules.Obj? then Failed("AttributeError")
    else
      match LabelText(fieldDef, suffix, prims)
      case Failed(e) => Failed(e)
      case Ok(fallback) => Ok(GetOr(rules.members, "custom_message", fallback))
  }

  /** One error with the given message, when the check fails. */
  function ErrorIf(violated: bool, id: Value, fieldDef: seq<(string, Value)>, suffix: string,
                   prims: Primitives): (r: Result<seq<FieldError>>)
    ensures r.Ok? ==> forall e | e in r.value :: e.fieldId == id
    ensures !violated ==> r == Ok([])
    ensures violated && Message(fieldDef, suffix, prims).Ok? ==>
      r == Ok([FieldError(id, Message(fieldDef, suffix, prims).value)])
    ensures violated && Message(fieldDef, suffix, prims).Failed? ==>
      r == Failed(Message(fieldDef, suffix, prims).error)
  {
    if !violated then Ok([])
    else
      match Message(fieldDef, suffix, prims)
      case Failed(e) => Failed(e)
      case Ok(m) => Ok([FieldError(id, m)])
  }

  /** A comparison against a rule: absent (None) rules never fail; a comparison Python
      cannot make raises TypeError. */
  function BoundError(rule: Value, outside: Option<bool>, id: Value, fieldDef: seq<(string, Value)>,
                      suffix: string, prims: Primitives): (r: Result<seq<FieldError>>)
    ensures r.Ok? ==> forall e | e in r.value :: e.fieldId == id
    ensures r.Ok? ==> |r.value| <= 1
    ensures rule == Null ==> r == Ok([])
    ensures rule != Null && outside.None? ==> r == Failed("TypeError")
    ensures rule != Null && outside == Some(false) ==> r == Ok([])
    ensures rule != Null && outside == Some(true) ==> r == ErrorIf(true, id, fieldDef, suffix, prims)
  {
    if rule == Null then Ok([])
    else
      match outside
      case None => Failed("TypeError")
      case Some(b) => ErrorIf(b, id, fieldDef, suffix, prims)
  }

  /** The `min_length` check on a text of length `n`. */
  function MinLengthError(n: nat, id: Value, fieldDef: seq<(string, Value)>, rules: seq<(string, Value)>,
                          prims: Primitives): (r: Result<seq<FieldError>>)
    ensures r.Ok? ==> forall e | e in r.value :: e.fieldId == id
  {
    var bound := Rule(rules, "min_length");
    BoundError(bound, PyLt(Num(n as real), bound), id, fieldDef,
               " must be at least " + PyStr(bound, prims) + " characters", prims)
  }

  /** The `max_length` check on a text of length `n`. */
  function MaxLengthError(n: nat, id: Value, fieldDef: seq<(string, Value)>, rules: seq<(string, Value)>,
                          prims: Primitives): (r: Result<seq<FieldError>>)
    ensures r.Ok? ==> forall e | e in r.value :: e.fieldId == id
  {
    var bound := Rule(rules, "max_length");
    BoundError(bound, PyLt(bound, Num(n as real)), id, fieldDef,
               " must be at most " + PyStr(bound, prims) + " characters", prims)
  }

  /** The `pattern` check: `re.match`, which anchors only at the start of the text. */
  function PatternError(s: string, id: Value, fieldDef: seq<(string, Value)>, rules: seq<(string, Value)>,
                        prims: Primitives): (r: Result<seq<FieldError>>)
    ensures r.Ok? ==> forall e | e in r.value :: e.fieldId == id
    ensures r.Ok? ==> |r.value| <= 1
    ensures !Truthy(Rule(rules, "pattern")) ==> r == Ok([])
    ensures Truthy(Rule(rules, "pattern")) && !Rule(rules, "pattern").Str? ==> r == Failed("TypeError")
    ensures Rule(rules, "pattern").Str? && Truthy(Rule(rules, "pattern")) ==>
      (prims.prefixMatch(Rule(rules, "pattern").s, s) ==> r == Ok([])) &&
      (!prims.prefixMatch(Rule(rules, "pattern").s, s) ==> r == ErrorIf(true, id, fieldDef, " format is invalid", prims))
  {
    var pattern := Rule(rules, "pattern");
    if !Truthy(pattern) then Ok([])
    else if !pattern.Str? then Failed("TypeError")
    else ErrorIf(!prims.prefixMatch(pattern.s, s), id, fieldDef, " format is invalid", prims)
  }

  /** The string checks, each run whatever the others found. */
  function TextErrors(id: Value, fieldDef: seq<(string, Value)>, value: Value, prims: Primitives): (r: Result<seq<FieldError>>)
    ensures r.Ok? ==> forall e | e in r.value :: e.fieldId == id
  {
    var rules := RulesOf(fieldDef);
    if !rules.Obj? then Failed("AttributeError")
    else
      var s := PyStr(value, prims);
      Concat(Concat(MinLengthError(|s|, id, fieldDef, rules.members, prims),
                    MaxLengthError(|s|, id, fieldDef, rules.members, prims)),
             PatternError(s, id, fieldDef, rules.members, prims))
  }

  /** The numeric checks: a value `float()` rejects gives its one error and stops. */
  function NumberErrors(id: Value, fieldDef: seq<(string, Value)>, value: Value, prims: Primitives): (r: Result<seq<FieldError>>)
    ensures r.Ok? ==> forall e | e in r.value :: e.fieldId == id
  {
    match ToFloat(value, prims)
    case None =>
      (match LabelText(fieldDef, " must be a number", prims)
       case Failed(e) => Failed(e)
       case Ok(m) => Ok([FieldError(id, m)]))
    case Some(x) =>
      var rules := RulesOf(fieldDef);
      if !rules.Obj? then Failed("AttributeError")
      else
        var lo := Rule(rules.members, "min_value");
        var hi := Rule(rules.members, "max_value");
        Concat(BoundError(lo, PyLt(Num(x), lo), id, fieldDef, " must be at least " + PyStr(lo, prims), prims),
               BoundError(hi, PyLt(hi, Num(x)), id, fieldDef, " must be at most " + PyStr(hi, prims), prims))
  }

  /** `[opt["value"] for opt in options]` */
  function OptionValues(options: Value): Result<seq<Value>>
  {
    match Elements(options)
    case None => Failed("TypeError")
    case Some(items) => OptionValuesOf(items)
  }

  /** Entry i of the result is option i's "value"; the list fails exactly when some
      option is not a dict or has no "value". */
  function OptionValuesOf(items: seq<Value>): (r: Result<seq<Value>>)
    ensures r.Ok? ==> |r.value| == |items|
    ensures r.Ok? ==> forall i | 0 <= i < |items| :: items[i].Obj? && Get(items[i].members, "value") == Some(r.value[i])
    ensures r.Ok? <==> forall i | 0 <= i < |items| :: items[i].Obj? && Get(items[i].members, "value").Some?
  {
    if items == [] then Ok([])
    else if !items[0].Obj? then Failed("TypeError")
    else
      match Get(items[0].members, "value")
      case None => Failed("KeyError")
      case Some(v) =>
        match OptionValuesOf(items[1..])
        case Failed(e) => Failed(e)
        case Ok(rest) => Ok([v] + rest)
  }

  /** The select check: the value must be one of the options' values. */
  function SelectErrors(id: Value, fieldDef: seq<(string, Value)>, value: Value, prims: Primitives): (r: Result<seq<FieldError>>)
    ensures r.Ok? ==> forall e | e in r.value :: e.fieldId == id
  {
    match OptionValues(GetOr(fieldDef, "options", Arr([])))
    case Failed(e) => Failed(e)
    case Ok(values) => ErrorIf(!InList(value, values), id, fieldDef, ": invalid selection", prims)
  }

  /** `validate_field`: the errors of one value, as the function returns them. */
  function FieldErrors(fieldDef: seq<(string, Value)>, value: Value, prims: Primitives): Result<seq<FieldError>>
  {
    match Get(fieldDef, "field_id")
    case None => Failed("KeyError")
    case Some(id) =>
      match Get(fieldDef, "type")
      case None => Failed("KeyError")
      case Some(t) =>
        if Truthy(GetOr(fieldDef, "required", Bool(false))) && IsBlank(value) then
          (match Message(fieldDef, " is required", prims)
           case Failed(e) => Failed(e)
           case Ok(m) => Ok([FieldError(id, m)]))
        else if IsBlank(value) then Ok([])
        else if t in StringTypes then TextErrors(id, fieldDef, value, prims)
        else if t in NumericTypes then NumberErrors(id, fieldDef, value, prims)
        else if t == Str("select") then SelectErrors(id, fieldDef, value, prims)
        else Ok([])
  }

  /** `validate_field`, appending to its error list check by check. */
  method ValidateField(fieldDef: seq<(string, Value)>, value: Value, prims: Primitives)
    returns (r: Result<seq<FieldError>>)
    ensures r == FieldErrors(fieldDef, value, prims)
  {
    var id := Get(fieldDef, "field_id");
    if id.None? { return Failed("KeyError"); }
    var t := Get(fieldDef, "type");
    if t.None? { return Failed("KeyError"); }
    var errors: seq<FieldError> := [];
    if Truthy(GetOr(fieldDef, "required", Bool(false))) && IsBlank(value) {
      var m := Message(fieldDef, " is required", prims);
      if m.Failed? { return Failed(m.error); }
      errors := errors + [FieldError(id.value, m.value)];
      assert errors == [FieldError(id.value, m.value)];
      return Ok(errors);
    }
    if IsBlank(value) { return Ok(errors); }
    if t.value in StringTypes {
      var rules := RulesOf(fieldDef);
      if !rules.Obj? { return Failed("AttributeError"); }
      var s := PyStr(value, prims);
      var short := MinLengthError(|s|, id.value, fieldDef, rules.members, prims);
      if short.Failed? { return Failed(short.error); }
      errors := errors + short.value;
      var long := MaxLengthError(|s|, id.value, fieldDef, rules.members, prims);
      if long.Failed? { return Failed(long.error); }
      errors := errors + long.value;
      var malformed := PatternError(s, id.value, fieldDef, rules.members, prims);
      if malformed.Failed? { return Failed(malformed.error); }
      errors := errors + malformed.value;
      assert [] + short.value == short.value;
      assert errors == short.value + long.value + malformed.value;
      return Ok(errors);
    }
    if t.value in NumericTypes {
      var x := ToFloat(value, prims);
      if x.None? {
        var m := LabelText(fieldDef, " must be a number", prims);
        if m.Failed? { return Failed(m.error); }
        errors := errors + [FieldError(id.value, m.value)];
        assert errors == [FieldError(id.value, m.value)];
        return Ok(errors);
      }
      var rules := RulesOf(fieldDef);
      if !rules.Obj? { return Failed("AttributeError"); }
      var lo := Rule(rules.members, "min_value");
      var hi := Rule(rules.members, "max_value");
      var low := BoundError(lo, PyLt(Num(x.value), lo), id.value, fieldDef, " must be at least " + PyStr(lo, prims), prims);
      if low.Failed? { return Failed(low.error); }
      errors := errors + low.value;
      var high := BoundError(hi, PyLt(hi, Num(x.value)), id.value, fieldDef, " must be at most " + PyStr(hi, prims), prims);
      if high.Failed? { return Failed(high.error); }
      errors := errors + high.value;
      assert [] + low.value == low.value;
      return Ok(errors);
    }
    if t.value == Str("select") {
      var values := OptionValues(GetOr(fieldDef, "options", Arr([])));
      if values.Failed? { return Failed(values.error); }
      if !InList(value, values.value) {
        var m := Message(fieldDef, ": invalid selection", prims);
        if m.Failed? { return Failed(m.error); }
        errors := errors + [FieldError(id.value, m.value)];
        assert errors == [FieldError(id.value, m.value)];
      }
    }
    return Ok(errors);
  }

  // ---------------------------------------------------------------------------
  // Properties of validate_field

  /** A field definition the validator can read: an id, a type, a validation dict and
      a label. */
  predicate WellFormed(fieldDef: seq<(string, Value)>)
  {
    "field_id" in Keys(fieldDef) && "type" in Keys(fieldDef) && "label" in Keys(fieldDef) &&
    RulesOf(fieldDef).Obj?
  }

  /** The message of a failed rule: the custom message when there is one, else the
      label followed by the rule's wording. */
  function ExpectedMessage(fieldDef: seq<(string, Value)>, suffix: string, prims: Primitives): Value
    requires WellFormed(fieldDef)
  {
    GetOr(RulesOf(fieldDef).members, "custom_message", Str(PyStr(GetOr(fieldDef, "label", Null), prims) + suffix))
  }

  lemma WellFormedLookups(fieldDef: seq<(string, Value)>)
    requires WellFormed(fieldDef)
    ensures Get(fieldDef, "field_id").Some? && Get(fieldDef, "type").Some? && Get(fieldDef, "label").Some?
  {
    GetFindsKey(fieldDef, "field_id");
    GetFindsKey(fieldDef, "type");
    GetFindsKey(fieldDef, "label");
  }

  /** A required field left blank gets exactly one error: the custom message, or
      "<label> is required". */
  lemma RequiredBlankValue(fieldDef: seq<(string, Value)>, value: Value, prims: Primitives)
    requires WellFormed(fieldDef) && Truthy(GetOr(fieldDef, "required", Bool(false))) && IsBlank(value)
    ensures FieldErrors(fieldDef, value, prims) ==
      Ok([FieldError(GetOr(fieldDef, "field_id", Null), ExpectedMessage(fieldDef, " is required", prims))])
  {
    WellFormedLookups(fieldDef);
  }

  /** An optional field left blank has no errors, whatever its type and rules. */
  lemma OptionalBlankValue(fieldDef: seq<(string, Value)>, value: Value, prims: Primitives)
    requires "field_id" in Keys(fieldDef) && "type" in Keys(fieldDef)
    requires !Truthy(GetOr(fieldDef, "required", Bool(false))) && IsBlank(value)
    ensures FieldErrors(fieldDef, value, prims) == Ok([])
  {
    GetFindsKey(fieldDef, "field_id");
    GetFindsKey(fieldDef, "type");
  }

  /** `[e]` when `b`, else `[]`. */
  function ErrorWhen(b: bool, e: FieldError): seq<FieldError>
  {
    if b then [e] else []
  }

  /** A rule that is absent or numeric (the comparisons Python can make). */
  predicate NumericRule(rule: Value) { rule == Null || NumberOf(rule).Some? }

  /** The string checks are independent: each failed one adds its own error, in the
      order min_length, max_length, pattern; the pattern need only match a prefix. */
  lemma TextChecksAreIndependent(fieldDef: seq<(string, Value)>, value: Value, prims: Primitives)
    requires WellFormed(fieldDef) && GetOr(fieldDef, "type", Null) in StringTypes && !IsBlank(value)
    requires var rules := RulesOf(fieldDef).members;
      NumericRule(Rule(rules, "min_length")) && NumericRule(Rule(rules, "max_length")) &&
      (!Truthy(Rule(rules, "pattern")) || Rule(rules, "pattern").Str?)
    ensures var rules := RulesOf(fieldDef).members;
      var s := PyStr(value, prims);
      var id := GetOr(fieldDef, "field_id", Null);
      var lo := Rule(rules, "min_length");
      var hi := Rule(rules, "max_length");
      var p := Rule(rules, "pattern");
      FieldErrors(fieldDef, value, prims) == Ok(
        ErrorWhen(lo != Null && (|s| as real) < NumberOf(lo).value,
                  FieldError(id, ExpectedMessage(fieldDef, " must be at least " + PyStr(lo, prims) + " characters", prims))) +
        ErrorWhen(hi != Null && (|s| as real) > NumberOf(hi).value,
                  FieldError(id, ExpectedMessage(fieldDef, " must be at most " + PyStr(hi, prims) + " characters", prims))) +
        ErrorWhen(Truthy(p) && !prims.prefixMatch(p.s, s),
                  FieldError(id, ExpectedMessage(fieldDef, " format is invalid", prims))))
  {
    WellFormedLookups(fieldDef);
    assert GetOr(fieldDef, "type", Null) == Get(fieldDef, "type").value;
  }

  /** A number or currency value `float()` rejects gets exactly one error,
      "<label> must be a number", which no custom message replaces. */
  lemma NonNumericValue(fieldDef: seq<(string, Value)>, value: Value, prims: Primitives)
    requires WellFormed(fieldDef) && GetOr(fieldDef, "type", Null) in NumericTypes && !IsBlank(value)
    requires ToFloat(value, prims).None?
    ensures FieldErrors(fieldDef, value, prims) ==
      Ok([FieldError(GetOr(fieldDef, "field_id", Null),
                     Str(PyStr(GetOr(fieldDef, "label", Null), prims) + " must be a number"))])
  {
    WellFormedLookups(fieldDef);
    assert GetOr(fieldDef, "type", Null) == Get(fieldDef, "type").value;
    TypeSetsDisjoint();
  }

  /** Numeric bounds are inclusive: a number passes exactly when it lies within them. */
  lemma NumericBoundsInclusive(fieldDef: seq<(string, Value)>, value: Value, prims: Primitives)
    requires WellFormed(fieldDef) && GetOr(fieldDef, "type", Null) in NumericTypes && !IsBlank(value)
    requires ToFloat(value, prims).Some?
    requires NumericRule(Rule(RulesOf(fieldDef).members, "min_value"))
    requires NumericRule(Rule(RulesOf(fieldDef).members, "max_value"))
    ensures var x := ToFloat(value, prims).value;
      var lo := Rule(RulesOf(fieldDef).members, "min_value");
      var hi := Rule(RulesOf(fieldDef).members, "max_value");
      FieldErrors(fieldDef, value, prims).Ok? &&
      (FieldErrors(fieldDef, value, prims).value == [] <==>
        (lo == Null || NumberOf(lo).value <= x) && (hi == Null || x <= NumberOf(hi).value))
  {
    NumericField(fieldDef, value, prims);
    NumberBounds(Get(fieldDef, "field_id").value, fieldDef, value, prims);
  }

  /** A numeric field with a value is checked by NumberErrors alone. */
  lemma NumericField(fieldDef: seq<(string, Value)>, value: Value, prims: Primitives)
    requires WellFormed(fieldDef) && GetOr(fieldDef, "type", Null) in NumericTypes && !IsBlank(value)
    ensures Get(fieldDef, "field_id").Some?
    ensures FieldErrors(fieldDef, value, prims) == NumberErrors(Get(fieldDef, "field_id").value, fieldDef, value, prims)
  {
    WellFormedLookups(fieldDef);
    var t := Get(fieldDef, "type").value;
    assert GetOr(fieldDef, "type", Null) == t;
    TypeSetsDisjoint();
  }

  /** No type gets both the text and the numeric checks. */
  lemma TypeSetsDisjoint()
    ensures forall t :: t in NumericTypes ==> t !in StringTypes
    ensures Str("select") !in StringTypes && Str("select") !in NumericTypes
  {
    assert "currency"[0] != "textarea"[0];
  }

  lemma NumberBounds(id: Value, fieldDef: seq<(string, Value)>, value: Value, prims: Primitives)
    requires WellFormed(fieldDef) && ToFloat(value, prims).Some?
    requires NumericRule(Rule(RulesOf(fieldDef).members, "min_value"))
    requires NumericRule(Rule(RulesOf(fieldDef).members, "max_value"))
    ensures var x := ToFloat(value, prims).value;
      var lo := Rule(RulesOf(fieldDef).members, "min_value");
      var hi := Rule(RulesOf(fieldDef).members, "max_value");
      NumberErrors(id, fieldDef, value, prims).Ok? &&
      (NumberErrors(id, fieldDef, value, prims).value == [] <==>
        (lo == Null || NumberOf(lo).value <= x) && (hi == Null || x <= NumberOf(hi).value))
  {
    var x := ToFloat(value, prims).value;
    var lo := Rule(RulesOf(fieldDef).members, "min_value");
    var hi := Rule(RulesOf(fieldDef).members, "max_value");
    LowerBound(lo, x, id, fieldDef, " must be at least " + PyStr(lo, prims), prims);
    UpperBound(hi, x, id, fieldDef, " must be at most " + PyStr(hi, prims), prims);
  }

  lemma LowerBound(lo: Value, x: real, id: Value, fieldDef: seq<(string, Value)>, suffix: string, prims: Primitives)
    requires WellFormed(fieldDef) && NumericRule(lo)
    ensures var r := BoundError(lo, PyLt(Num(x), lo), id, fieldDef, suffix, prims);
      r.Ok? && (r.value == [] <==> lo == Null || NumberOf(lo).value <= x)
  {
    WellFormedLookups(fieldDef);
  }

  lemma UpperBound(hi: Value, x: real, id: Value, fieldDef: seq<(string, Value)>, suffix: string, prims: Primitives)
    requires WellFormed(fieldDef) && NumericRule(hi)
    ensures var r := BoundError(hi, PyLt(hi, Num(x)), id, fieldDef, suffix, prims);
      r.Ok? && (r.value == [] <==> hi == Null || x <= NumberOf(hi).value)
  {
    WellFormedLookups(fieldDef);
  }

  /** A select without options rejects every value that is not blank. */
  lemma SelectWithoutOptions(fieldDef: seq<(string, Value)>, value: Value, prims: Primitives)
    requires WellFormed(fieldDef) && GetOr(fieldDef, "type", Null) == Str("select") && !IsBlank(value)
    requires GetOr(fieldDef, "options", Arr([])) == Arr([])
    ensures FieldErrors(fieldDef, value, prims) ==
      Ok([FieldError(GetOr(fieldDef, "field_id", Null), ExpectedMessage(fieldDef, ": invalid selection", prims))])
  {
    WellFormedLookups(fieldDef);
    assert GetOr(fieldDef, "type", Null) == Get(fieldDef, "type").value;
    TypeSetsDisjoint();
  }

  /** Every error names the validated field. */
  lemma ErrorsNameTheField(fieldDef: seq<(string, Value)>, value: Value, prims: Primitives)
    requires FieldErrors(fieldDef, value, prims).Ok?
    ensures forall e :: e in FieldErrors(fieldDef, value, prims).value ==> e.fieldId == GetOr(fieldDef, "field_id", Null)
  {
  }

  // ---------------------------------------------------------------------------
  // evaluate_conditions

  /** `float(v)` for a comparison: None where it raises. */
  function Numeric(v: Value, prims: Primitives): Option<real>
  {
    ToFloat(v, prims)
  }

  /** `data.get(key)` for a hashable key: the data's keys are strings. */
  function DataValue(data: map<string, Value>, key: Value): Value
  {
    if key.Str? && key.s in data then data[key.s] else Null
  }

  /** One condition against the form data: Ok(false) where the loop returns False,
      Ok(true) where it moves on to the next condition. */
  function ConditionHolds(cond: Value, data: map<string, Value>, prims: Primitives): Result<bool>
  {
    if !cond.Obj? then Failed("TypeError")
    else
      match Get(cond.members, "field_id")
      case None => Failed("KeyError")
      case Some(fid) =>
        if fid.Arr? || fid.Obj? then Failed("TypeError")
        else
          var fieldVal := DataValue(data, fid);
          match Get(cond.members, "operator")
          case None => Failed("KeyError")
          case Some(op) =>
            match Get(cond.members, "value")
            case None => Failed("KeyError")
            case Some(expected) =>
              if op == Str("equals") then Ok(PyEq(fieldVal, expected))
              else if op == Str("not_equals") then Ok(!PyEq(fieldVal, expected))
              else if op == Str("in") then
                (match PyIn(fieldVal, expected)
                 case None => Failed("TypeError")
                 case Some(b) => Ok(b))
              else if op == Str("not_in") then
                (match PyIn(fieldVal, expected)
                 case None => Failed("TypeError")
                 case Some(b) => Ok(!b))
              else if op == Str("greater_than") then
                Ok(Numeric(fieldVal, prims).Some? && Numeric(expected, prims).Some? &&
                   Numeric(fieldVal, prims).value > Numeric(expected, prims).value)
              else if op == Str("less_than") then
                Ok(Numeric(fieldVal, prims).Some? && Numeric(expected, prims).Some? &&
                   Numeric(fieldVal, prims).value < Numeric(expected, prims).value)
              else Ok(true)
  }

  /** The loop over the conditions, returning at the first one that fails or raises. */
  function AllConditionsHold(conds: seq<Value>, data: map<string, Value>, prims: Primitives): Result<bool>
  {
    AllHold(conds, c => ConditionHolds(c, data, prims))
  }

  /** A loop that stops at the first check that fails or raises. */
  function AllHold(conds: seq<Value>, check: Value -> Result<bool>): Result<bool>
  {
    if conds == [] then Ok(true)
    else
      match check(conds[0])
      case Failed(e) => Failed(e)
      case Ok(b) => if !b then Ok(false) else AllHold(conds[1..], check)
  }

  /** `evaluate_conditions`: no conditions hold trivially; a truthy value that is not a
      list yields items that are not dicts, or is not iterable, and raises TypeError. */
  function ConditionsHold(conditions: Value, data: map<string, Value>, prims: Primitives): (r: Result<bool>)
    ensures !Truthy(conditions) ==> r == Ok(true)
    ensures Truthy(conditions) && !conditions.Arr? ==> r == Failed("TypeError")
    ensures conditions.Arr? ==>
      (r == Ok(true) <==> forall i :: 0 <= i < |conditions.items| ==> ConditionHolds(conditions.items[i], data, prims) == Ok(true))
  {
    if !Truthy(conditions) then Ok(true)
    else if !conditions.Arr? then Failed("TypeError")
    else
      ConditionsAreConjunction(conditions.items, data, prims);
      AllConditionsHold(conditions.items, data, prims)
  }

  /** The conditions form a conjunction: they hold exactly when each one does, and
      they fail exactly when one fails after all before it held. */
  lemma ConditionsAreConjunction(conds: seq<Value>, data: map<string, Value>, prims: Primitives)
    ensures AllConditionsHold(conds, data, prims) == Ok(true) <==>
      forall i :: 0 <= i < |conds| ==> ConditionHolds(conds[i], data, prims) == Ok(true)
    ensures AllConditionsHold(conds, data, prims) == Ok(false) <==>
      exists k :: 0 <= k < |conds| && ConditionHolds(conds[k], data, prims) == Ok(false) &&
        forall i :: 0 <= i < k ==> ConditionHolds(conds[i], data, prims) == Ok(true)
  {
    AllHoldIsConjunction(conds, c => ConditionHolds(c, data, prims));
  }

  /** A loop of checks is a conjunction: it holds exactly when each check does, and it
      fails exactly when one check fails after all before it held. */
  lemma {:induction false} AllHoldIsConjunction(conds: seq<Value>, check: Value -> Result<bool>)
    ensures AllHold(conds, check) == Ok(true) <==>
      forall i :: 0 <= i < |conds| ==> check(conds[i]) == Ok(true)
    ensures AllHold(conds, check) == Ok(false) <==>
      exists k :: 0 <= k < |conds| && check(conds[k]) == Ok(false) &&
        forall i :: 0 <= i < k ==> check(conds[i]) == Ok(true)
  {
    if conds != [] {
      AllHoldIsConjunction(conds[1..], check);
      assert forall i :: 1 <= i < |conds| ==> conds[1..][i - 1] == conds[i];
      if check(conds[0]) == Ok(true) {
        if AllHold(conds, check) == Ok(false) {
          var k :| 0 <= k < |conds[1..]| && check(conds[1..][k]) == Ok(false) &&
            forall i :: 0 <= i < k ==> check(conds[1..][i]) == Ok(true);
          assert check(conds[k + 1]) == Ok(false);
          assert forall i :: 1 <= i < k + 1 ==> check(conds[i]) == Ok(true) by {
            forall i | 1 <= i < k + 1 ensures check(conds[i]) == Ok(true) {
              assert conds[1..][i - 1] == conds[i];
            }
          }
        }
        if exists k :: 0 <= k < |conds| && check(conds[k]) == Ok(false) &&
             forall i :: 0 <= i < k ==> check(conds[i]) == Ok(true) {
          var k :| 0 <= k < |conds| && check(conds[k]) == Ok(false) &&
            forall i :: 0 <= i < k ==> check(conds[i]) == Ok(true);
          assert k > 0;
          assert check(conds[1..][k - 1]) == Ok(false);
        }
      }
    }
  }

  /** An empty or missing condition list holds. */
  lemma NoConditionsHold(conditions: Value, data: map<string, Value>, prims: Primitives)
    requires conditions == Null || conditions == Arr([])
    ensures ConditionsHold(conditions, data, prims) == Ok(true)
  {
  }

  /** `{"field_id": f, "operator": op, "value": expected}` */
  function Cond(f: string, op: string, expected: Value): Value
  {
    Obj([("field_id", Str(f)), ("operator", Str(op)), ("value", expected)])
  }

  lemma CondLookups(f: string, op: string, expected: Value)
    ensures Get(Cond(f, op, expected).members, "field_id") == Some(Str(f))
    ensures Get(Cond(f, op, expected).members, "operator") == Some(Str(op))
    ensures Get(Cond(f, op, expected).members, "value") == Some(expected)
  {
    ThreeKeys("field_id", Str(f), "operator", Str(op), "value", expected);
  }

  /** `greater_than` and `less_than` are strict, and false when either side is not a
      number. */
  lemma OrderingIsStrict(f: string, expected: Value, data: map<string, Value>, prims: Primitives)
    ensures var v := if f in data then data[f] else Null;
      var x := ToFloat(v, prims);
      var y := ToFloat(expected, prims);
      (ConditionHolds(Cond(f, "greater_than", expected), data, prims) == Ok(true) <==>
        x.Some? && y.Some? && x.value > y.value) &&
      (ConditionHolds(Cond(f, "less_than", expected), data, prims) == Ok(true) <==>
        x.Some? && y.Some? && x.value < y.value)
  {
    CondLookups(f, "greater_than", expected);
    CondLookups(f, "less_than", expected);
  }

  /** An operator the evaluator does not know passes. */
  lemma UnknownOperatorPasses(f: string, op: string, expected: Value, data: map<string, Value>, prims: Primitives)
    requires op !in {"equals", "not_equals", "in", "not_in", "greater_than", "less_than"}
    ensures ConditionHolds(Cond(f, op, expected), data, prims) == Ok(true)
  {
    CondLookups(f, op, expected);
  }
}
