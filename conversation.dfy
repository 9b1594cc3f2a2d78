/** Tracked fields, session state and the visibility-condition evaluator
    (ai-service/app/models/conversation.py). */
module Conversation {
  import opened Values

  datatype Role = User | Assistant

  datatype FieldStatus = Missing | Unconfirmed | Confirmed | Collected

  datatype SessionPhase = SpotCheck | Collecting | Reviewing | Complete | Submitted

  /** Position of a phase in SPOT_CHECK < COLLECTING < REVIEWING < COMPLETE < SUBMITTED. */
  function Rank(p: SessionPhase): nat
  {
    match p
    case SpotCheck => 0
    case Collecting => 1
    case Reviewing => 2
    case Complete => 3
    case Submitted => 4
  }

  predicate IsTerminal(p: SessionPhase) { p == Complete || p == Submitted }

  /** A visibility condition, one constructor per dictionary shape the evaluator
      recognises, in the order it tests for them:
      a dict with both "operator" and "conditions" (compound), else one with
      "field_id" (internal format), else one with "field" (eApp format; an absent
      "op" is recorded as "eq" and an absent "value" as Null), else anything else. */
  datatype Condition =
    | Compound(operator: string, children: seq<Condition>)
    | Simple(fieldId: string, operator: string, expected: Value)
    | Leaf(field: string, op: string, expected: Value)
    | Unrecognised

  /** One entry of a select field's `options`; `label` is used only in messages. */
  datatype SelectOption = SelectOption(value: Value, labelText: Option<Value>)

  /** `[opt["value"] for opt in options]` */
  function OptionValues(opts: seq<SelectOption>): seq<Value>
  {
    MapSeq(opts, (o: SelectOption) => o.value)
  }

  datatype TrackedField = TrackedField(
    fieldId: string,
    value: Value,
    status: FieldStatus,
    labelText: string,
    fieldType: string,
    required: bool,
    validation: map<string, Value>,
    options: Option<seq<SelectOption>>,
    conditions: Option<seq<Condition>>,
    validationError: Option<string>)

  /** A field definition as a step hands it over.  `labelText` and `fieldType` are
      None when the key is absent; an absent "required" is false and an absent
      "validation" is empty. */
  datatype FieldDefinition = FieldDefinition(
    fieldId: string,
    fieldType: Option<string>,
    labelText: Option<string>,
    required: bool,
    validation: map<string, Value>,
    options: Option<seq<SelectOption>>,
    conditions: Option<seq<Condition>>)

  /** A step definition as a session is created with; absent keys are None (or no fields). */
  datatype StepDefinition = StepDefinition(stepId: Option<string>, title: Option<string>, fields: seq<FieldDefinition>)

  /** A step as the session keeps it, with "" for an absent id or title. */
  datatype StepRecord = StepRecord(stepId: string, title: string, fields: seq<FieldDefinition>)

  datatype Message = Message(
    role: Role,
    content: string,
    timestamp: int,
    extractedFields: Option<map<string, Value>>)

  /** The root aggregate of one conversation.  `advisorName` and `clientContext`
      are read by the services, so the model declares them. */
  class ConversationState {
    const sessionId: string
    var phase: SessionPhase
    var fields: seq<TrackedField>
    var steps: seq<StepRecord>
    var callbackUrl: Option<string>
    var messages: seq<Message>
    var modelOverride: Option<string>
    var advisorName: Option<string>
    var clientContext: seq<(string, Value)>
    const createdAt: int
    var submittedAt: Option<int>

    constructor (sessionId: string, phase: SessionPhase, fields: seq<TrackedField>,
                 steps: seq<StepRecord>, callbackUrl: Option<string>,
                 modelOverride: Option<string>, advisorName: Option<string>,
                 clientContext: seq<(string, Value)>, createdAt: int)
      ensures this.sessionId == sessionId && this.phase == phase && this.fields == fields
      ensures this.steps == steps && this.callbackUrl == callbackUrl
      ensures this.modelOverride == modelOverride && this.advisorName == advisorName
      ensures this.clientContext == clientContext && this.createdAt == createdAt
      ensures this.messages == [] && this.submittedAt == None
    {
      this.sessionId := sessionId;
      this.phase := phase;
      this.fields := fields;
      this.steps := steps;
      this.callbackUrl := callbackUrl;
      this.messages := [];
      this.modelOverride := modelOverride;
      this.advisorName := advisorName;
      this.clientContext := clientContext;
      this.createdAt := createdAt;
      this.submittedAt := None;
    }
  }

  // ---------------------------------------------------------------------------
  // The field dictionary

  /** Field ids are dictionary keys, so they are unique. */
  ghost predicate UniqueIds(fs: seq<TrackedField>)
  {
    forall i, j :: 0 <= i < j < |fs| ==> fs[i].fieldId != fs[j].fieldId
  }

  function Ids(fs: seq<TrackedField>): (ids: seq<string>)
    ensures |ids| == |fs| && forall i :: 0 <= i < |fs| ==> ids[i] == fs[i].fieldId
  {
    if fs == [] then [] else [fs[0].fieldId] + Ids(fs[1..])
  }

  /** `state.fields.get(field_id)`, as the index of the field. */
  function FindField(fs: seq<TrackedField>, id: string): (r: Option<nat>)
    ensures r.Some? ==> r.value < |fs| && fs[r.value].fieldId == id
    ensures r.None? <==> forall i :: 0 <= i < |fs| ==> fs[i].fieldId != id
  {
    if fs == [] then None
    else if fs[0].fieldId == id then Some(0)
    else match FindField(fs[1..], id)
      case Some(k) => Some(k + 1)
      case None => None
  }

  lemma FindUnique(fs: seq<TrackedField>, i: nat)
    requires UniqueIds(fs) && i < |fs|
    ensures FindField(fs, fs[i].fieldId) == Some(i)
  {
  }

  /** The values visible to conditions: `{f.field_id: f.value ... if f.value is not None}`. */
  function DataMap(fs: seq<TrackedField>): (data: map<string, Value>)
    ensures forall k :: k in data ==> data[k] != Null
  {
    if fs == [] then map[]
    else (if fs[0].value != Null then map[fs[0].fieldId := fs[0].value] else map[]) + DataMap(fs[1..])
  }

  lemma {:induction false} DataMapLookup(fs: seq<TrackedField>, i: nat)
    requires UniqueIds(fs) && i < |fs|
    ensures fs[i].fieldId in DataMap(fs) <==> fs[i].value != Null
    ensures fs[i].value != Null ==> DataMap(fs)[fs[i].fieldId] == fs[i].value
  {
    if i == 0 {
      DataMapAbsent(fs[1..], fs[0].fieldId);
    } else {
      DataMapLookup(fs[1..], i - 1);
    }
  }

  lemma {:induction false} DataMapAbsent(fs: seq<TrackedField>, id: string)
    requires forall i :: 0 <= i < |fs| ==> fs[i].fieldId != id
    ensures id !in DataMap(fs)
  {
    if fs != [] { DataMapAbsent(fs[1..], id); }
  }

  // ---------------------------------------------------------------------------
  // Condition evaluation

  function FieldValue(data: map<string, Value>, id: string): Value
  {
    if id in data then data[id] else Null
  }

  /** `_eval_condition` */
  predicate Eval(c: Condition, data: map<string, Value>)
    decreases c, 1
  {
    match c
    case Compound(op, children) =>
      if op == "AND" then AllHold(children, data)
      else if op == "OR" then AnyHolds(children, data)
      else if op == "NOT" then !AnyHolds(children, data)
      else true
    case Simple(id, op, expected) => EvalSimple(FieldValue(data, id), op, expected)
    case Leaf(id, op, expected) => EvalLeaf(FieldValue(data, id), op, expected)
    case Unrecognised => true
  }

  /** `all(...)` over the children, left to right. */
  predicate AllHold(cs: seq<Condition>, data: map<string, Value>)
    decreases cs, 0
  {
    cs == [] || (Eval(cs[0], data) && AllHold(cs[1..], data))
  }

  /** `any(...)` over the children, left to right. */
  predicate AnyHolds(cs: seq<Condition>, data: map<string, Value>)
    decreases cs, 0
  {
    cs != [] && (Eval(cs[0], data) || AnyHolds(cs[1..], data))
  }

  /** `_eval_simple`.  Where Python's `in` raises TypeError the condition is false. */
  predicate EvalSimple(value: Value, op: string, expected: Value)
  {
    if op == "equals" then PyEq(value, expected)
    else if op == "not_equals" then !PyEq(value, expected)
    else if op == "in" then PyIn(value, expected) == Some(true)
    else if op == "not_in" then PyIn(value, expected) == Some(false)
    else true
  }

  /** `expected or []` */
  function OrEmptyList(v: Value): Value
  {
    if Truthy(v) then v else Arr([])
  }

  /** `_eval_leaf`.  Where Python's comparison or `in` raises TypeError the condition
      is false. */
  predicate EvalLeaf(value: Value, op: string, expected: Value)
  {
    if op == "eq" then PyEq(value, expected)
    else if op == "neq" then !PyEq(value, expected)
    else if op == "contains" then value.Arr? && InList(expected, value.items)
    else if op == "gt" then value != Null && PyLt(expected, value) == Some(true)
    else if op == "gte" then value != Null && PyLe(expected, value) == Some(true)
    else if op == "lt" then value != Null && PyLt(value, expected) == Some(true)
    else if op == "lte" then value != Null && PyLe(value, expected) == Some(true)
    else if op == "in" then PyIn(value, OrEmptyList(expected)) == Some(true)
    else if op == "not_in" then PyIn(value, OrEmptyList(expected)) == Some(false)
    else true
  }

  /** An operator as the evaluator compares it: a string, or one that matches none
      of the operator names ("" stands for any non-string). */
  function OperatorText(v: Value): string
  {
    if v.Str? then v.s else ""
  }

  /** The condition `_eval_condition` reads in a dict, by the keys it tests in turn.
      None for a shape the model does not represent: a non-dict, a field name that is
      not a string, children that are not a list, or an internal-format dict without
      "operator" or "value" (a KeyError in the evaluator). */
  function ConditionOf(v: Value): Option<Condition>
    decreases v
  {
    match v
    case Obj(ms) =>
      var keys := Keys(ms);
      if "operator" in keys && "conditions" in keys then
        GetFindsKey(ms, "conditions");
        var children := Get(ms, "conditions").value;
        if children.Arr? then
          var parsed := seq(|children.items|, i requires 0 <= i < |children.items| => ConditionOf(children.items[i]));
          if forall i | 0 <= i < |parsed| :: parsed[i].Some? then
            Some(Compound(OperatorText(GetOr(ms, "operator", Null)), seq(|parsed|, i requires 0 <= i < |parsed| => parsed[i].value)))
          else None
        else None
      else if "field_id" in keys then
        var id := GetOr(ms, "field_id", Null);
        if id.Str? && "operator" in keys && "value" in keys then
          Some(Simple(id.s, OperatorText(GetOr(ms, "operator", Null)), GetOr(ms, "value", Null)))
        else None
      else if "field" in keys then
        var id := GetOr(ms, "field", Null);
        if id.Str? then Some(Leaf(id.s, OperatorText(GetOr(ms, "op", Str("eq"))), GetOr(ms, "value", Null)))
        else None
      else Some(Unrecognised)
    case _ => None
  }

  /** `_conditions_met`: no conditions, or every condition in the list holds. */
  predicate ConditionsMet(conditions: Option<seq<Condition>>, data: map<string, Value>)
  {
    conditions.None? || conditions.value == [] || AllHold(conditions.value, data)
  }

  lemma {:induction false} AllHoldIff(cs: seq<Condition>, data: map<string, Value>)
    ensures AllHold(cs, data) <==> forall i :: 0 <= i < |cs| ==> Eval(cs[i], data)
  {
    if cs != [] {
      AllHoldIff(cs[1..], data);
      assert forall i :: 0 < i < |cs| ==> cs[i] == cs[1..][i - 1];
    }
  }

  lemma {:induction false} AnyHoldsIff(cs: seq<Condition>, data: map<string, Value>)
    ensures AnyHolds(cs, data) <==> exists i :: 0 <= i < |cs| && Eval(cs[i], data)
  {
    if cs != [] {
      AnyHoldsIff(cs[1..], data);
      assert forall i :: 0 < i < |cs| ==> cs[i] == cs[1..][i - 1];
    }
  }

  /** A field's condition list is a conjunction. */
  lemma ConditionsAreConjunction(conditions: Option<seq<Condition>>, data: map<string, Value>)
    ensures ConditionsMet(conditions, data) <==>
      conditions.None? || forall i :: 0 <= i < |conditions.value| ==> Eval(conditions.value[i], data)
  {
    if conditions.Some? { AllHoldIff(conditions.value, data); }
  }

  /** NOT is a NOR over its children, not the negation of one child. */
  lemma NotIsNor(cs: seq<Condition>, data: map<string, Value>)
    ensures Eval(Compound("NOT", cs), data) <==> forall i :: 0 <= i < |cs| ==> !Eval(cs[i], data)
    ensures |cs| == 1 ==> (Eval(Compound("NOT", cs), data) <==> !Eval(cs[0], data))
  {
    AnyHoldsIff(cs, data);
  }

  lemma AndOrSemantics(cs: seq<Condition>, data: map<string, Value>)
    ensures Eval(Compound("AND", cs), data) <==> forall i :: 0 <= i < |cs| ==> Eval(cs[i], data)
    ensures Eval(Compound("OR", cs), data) <==> exists i :: 0 <= i < |cs| && Eval(cs[i], data)
  {
    AllHoldIff(cs, data);
    AnyHoldsIff(cs, data);
  }

  /** Leaves compare a missing or null field as Null; ordering against it is false. */
  lemma OrderingAgainstMissingIsFalse(data: map<string, Value>, id: string, op: string, expected: Value)
    requires id !in data
    requires op in {"gt", "gte", "lt", "lte"}
    ensures !Eval(Leaf(id, op, expected), data)
  {
  }

  /** Leaf `contains` holds exactly when the field holds a list containing the value. */
  lemma LeafContains(data: map<string, Value>, id: string, expected: Value)
    ensures Eval(Leaf(id, "contains", expected), data) <==>
      id in data && data[id].Arr? && exists i :: 0 <= i < |data[id].items| && PyEq(expected, data[id].items[i])
  {
  }

  /** Leaf `in`/`not_in` read a falsy expected value as the empty list. */
  lemma LeafInFalsyExpected(data: map<string, Value>, id: string, expected: Value)
    requires !Truthy(expected)
    ensures !Eval(Leaf(id, "in", expected), data)
    ensures Eval(Leaf(id, "not_in", expected), data)
  {
  }

  /** Shapes and operators the evaluator does not know let the field through. */
  lemma UnknownFormsHold(data: map<string, Value>, op: string, cs: seq<Condition>, id: string, v: Value)
    ensures Eval(Unrecognised, data)
    ensures op !in {"AND", "OR", "NOT"} ==> Eval(Compound(op, cs), data)
    ensures op !in {"equals", "not_equals", "in", "not_in"} ==> Eval(Simple(id, op, v), data)
    ensures op !in {"eq", "neq", "contains", "gt", "gte", "lt", "lte", "in", "not_in"} ==>
      Eval(Leaf(id, op, v), data)
  {
  }

  // ---------------------------------------------------------------------------
  // Queries on the field dictionary

  predicate IsActive(f: TrackedField, data: map<string, Value>)
  {
    ConditionsMet(f.conditions, data)
  }

  /** `active_fields()`: fields whose conditions hold over the current data, in order. */
  function ActiveFields(fs: seq<TrackedField>): seq<TrackedField>
  {
    var data := DataMap(fs);
    Filter(fs, (f: TrackedField) => IsActive(f, data))
  }

  lemma ActiveFieldsMembers(fs: seq<TrackedField>, f: TrackedField)
    ensures f in ActiveFields(fs) <==> f in fs && IsActive(f, DataMap(fs))
  {
    var data := DataMap(fs);
    FilterMembers(fs, (g: TrackedField) => IsActive(g, data), f);
  }

  /** A field without conditions (absent or empty list) is always active. */
  lemma UnconditionalFieldIsActive(fs: seq<TrackedField>, f: TrackedField)
    requires f in fs && (f.conditions.None? || f.conditions.value == [])
    ensures f in ActiveFields(fs)
  {
    ActiveFieldsMembers(fs, f);
  }

  function FieldsByStatus(fs: seq<TrackedField>, s: FieldStatus): seq<TrackedField>
  {
    Filter(fs, (f: TrackedField) => f.status == s)
  }

  /** `missing_required()` */
  function MissingRequired(fs: seq<TrackedField>): seq<TrackedField>
  {
    Filter(ActiveFields(fs), (f: TrackedField) => f.required && f.status == Missing)
  }

  /** `unconfirmed_fields()` */
  function UnconfirmedFields(fs: seq<TrackedField>): seq<TrackedField>
  {
    Filter(ActiveFields(fs), (f: TrackedField) => f.status == Unconfirmed)
  }

  lemma MissingRequiredMembers(fs: seq<TrackedField>, f: TrackedField)
    ensures f in MissingRequired(fs) <==>
      f in fs && IsActive(f, DataMap(fs)) && f.required && f.status == Missing
  {
    ActiveFieldsMembers(fs, f);
    FilterMembers(ActiveFields(fs), (g: TrackedField) => g.required && g.status == Missing, f);
  }

  lemma UnconfirmedFieldsMembers(fs: seq<TrackedField>, f: TrackedField)
    ensures f in UnconfirmedFields(fs) <==>
      f in fs && IsActive(f, DataMap(fs)) && f.status == Unconfirmed
  {
    ActiveFieldsMembers(fs, f);
    FilterMembers(ActiveFields(fs), (g: TrackedField) => g.status == Unconfirmed, f);
  }

  predicate Unresolved(f: TrackedField)
  {
    f.required && (f.status == Missing || f.status == Unconfirmed)
  }

  /** What `all_required_resolved()` answers: no active required field is MISSING or
      UNCONFIRMED. */
  predicate RequiredResolved(fs: seq<TrackedField>)
  {
    forall f | f in ActiveFields(fs) :: !Unresolved(f)
  }

  /** `all_required_resolved()`: a scan of the active fields with an early return. */
  method AllRequiredResolved(fs: seq<TrackedField>) returns (resolved: bool)
    ensures resolved <==> forall f | f in ActiveFields(fs) :: !(f.required && (f.status == Missing || f.status == Unconfirmed))
  {
    var active := ActiveFields(fs);
    var i := 0;
    while i < |active|
      invariant 0 <= i <= |active|
      invariant forall k :: 0 <= k < i ==> !Unresolved(active[k])
    {
      var f := active[i];
      if f.required && (f.status == Missing || f.status == Unconfirmed) {
        return false;
      }
      i := i + 1;
    }
    return true;
  }

  /** Resolution is exactly: nothing missing among the required, nothing unconfirmed
      among the required. */
  lemma RequiredResolvedIff(fs: seq<TrackedField>)
    ensures RequiredResolved(fs) <==>
      MissingRequired(fs) == [] && forall f | f in UnconfirmedFields(fs) :: !f.required
  {
    if !RequiredResolved(fs) {
      var f :| f in ActiveFields(fs) && Unresolved(f);
      ActiveFieldsMembers(fs, f);
      if f.status == Missing {
        MissingRequiredMembers(fs, f);
      } else {
        UnconfirmedFieldsMembers(fs, f);
      }
    } else {
      if MissingRequired(fs) != [] {
        var f := MissingRequired(fs)[0];
        MissingRequiredMembers(fs, f);
        ActiveFieldsMembers(fs, f);
      }
      forall f | f in UnconfirmedFields(fs) ensures !f.required {
        UnconfirmedFieldsMembers(fs, f);
        ActiveFieldsMembers(fs, f);
      }
    }
  }

  predicate Resolved(f: TrackedField)
  {
    (f.status == Confirmed || f.status == Collected) && f.value != Null
  }

  /** `application_data()`: the values of the confirmed and collected fields that are
      not null, whether active or not. */
  function ApplicationData(fs: seq<TrackedField>): map<string, Value>
  {
    if fs == [] then map[]
    else (if Resolved(fs[0]) then map[fs[0].fieldId := fs[0].value] else map[]) + ApplicationData(fs[1..])
  }

  lemma {:induction false} ApplicationDataKeys(fs: seq<TrackedField>, id: string)
    ensures id in ApplicationData(fs) <==> exists i :: 0 <= i < |fs| && fs[i].fieldId == id && Resolved(fs[i])
  {
    if fs != [] {
      ApplicationDataKeys(fs[1..], id);
      if id in ApplicationData(fs[1..]) {
        var i :| 0 <= i < |fs[1..]| && fs[1..][i].fieldId == id && Resolved(fs[1..][i]);
        assert fs[i + 1] == fs[1..][i];
      }
      if exists i :: 0 <= i < |fs| && fs[i].fieldId == id && Resolved(fs[i]) {
        var i :| 0 <= i < |fs| && fs[i].fieldId == id && Resolved(fs[i]);
        if i > 0 { assert fs[1..][i - 1] == fs[i]; }
      }
    }
  }

  lemma {:induction false} ApplicationDataValue(fs: seq<TrackedField>, i: nat)
    requires UniqueIds(fs) && i < |fs| && Resolved(fs[i])
    ensures fs[i].fieldId in ApplicationData(fs) && ApplicationData(fs)[fs[i].fieldId] == fs[i].value
  {
    if i == 0 {
      ApplicationDataKeys(fs[1..], fs[0].fieldId);
    } else {
      ApplicationDataValue(fs[1..], i - 1);
    }
  }

  // ---------------------------------------------------------------------------
  // field_summary

  function StatusIs(s: FieldStatus): TrackedField -> bool
  {
    (f: TrackedField) => f.status == s
  }

  function CountStatus(fs: seq<TrackedField>, s: FieldStatus): nat
  {
    |Filter(fs, StatusIs(s))|
  }

  /** `field_summary()`: per-status counts over the active fields. */
  method FieldSummary(fs: seq<TrackedField>) returns (counts: map<FieldStatus, nat>)
    ensures forall s :: s in counts && counts[s] == CountStatus(ActiveFields(fs), s)
  {
    counts := map[Missing := 0, Unconfirmed := 0, Confirmed := 0, Collected := 0];
    var active := ActiveFields(fs);
    var i := 0;
    assert active[..0] == [];
    forall s: FieldStatus ensures s in counts {
      match s
      case Missing =>
      case Unconfirmed =>
      case Confirmed =>
      case Collected =>
    }
    while i < |active|
      invariant 0 <= i <= |active|
      invariant forall s :: s in counts && counts[s] == CountStatus(active[..i], s)
    {
      var f := active[i];
      assert active[..i + 1] == active[..i] + [f];
      CountAppend(active[..i], f);
      counts := counts[f.status := counts[f.status] + 1];
      i := i + 1;
    }
    assert active[..i] == active;
  }

  /** Appending a field adds one to the count of its status only. */
  lemma CountAppend(fs: seq<TrackedField>, f: TrackedField)
    ensures forall s :: CountStatus(fs + [f], s) == CountStatus(fs, s) + (if f.status == s then 1 else 0)
  {
    forall s ensures CountStatus(fs + [f], s) == CountStatus(fs, s) + (if f.status == s then 1 else 0) {
      FilterAppend(fs, [f], StatusIs(s));
    }
  }

  /** The four counts of field_summary partition the active fields. */
  lemma {:induction false} SummaryCoversAll(fs: seq<TrackedField>)
    ensures CountStatus(fs, Missing) + CountStatus(fs, Unconfirmed)
          + CountStatus(fs, Confirmed) + CountStatus(fs, Collected) == |fs|
  {
    if fs != [] {
      SummaryCoversAll(fs[1..]);
    }
  }
}
