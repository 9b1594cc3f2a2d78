/** The tools offered to the language model: per-field JSON Schema properties, the
    extraction and confirmation tools, the advisor tools and the per-phase tool set
    (ai-service/app/services/extraction_service.py). */
module Extraction {
  import opened Values
  import opened Conversation

  /** The JSON Schema pattern of the "ssn" field type. */
  const SsnPattern: string := "^\\d{3}-\\d{2}-\\d{4}$"

  /** A tool definition.  The extraction and confirmation tools carry what varies
      between calls (their properties and their id enumeration); an advisor tool is a
      fixed definition known by its name. */
  datatype Tool =
    | Extract(properties: seq<(string, Value)>)
    | Confirm(fieldIds: seq<string>)
    | Advisor(name: string)

  const ExtractToolName: string := "extract_application_fields"
  const ConfirmToolName: string := "confirm_known_fields"
  const ExtractDescription: string :=
    "Extract application field values from the conversation. "
    + "Only include fields the user has clearly provided. Do not guess or fabricate values."
  const ConfirmDescription: string :=
    "Confirm that pre-populated field values are correct as stated by the user. "
    + "Pass the list of field_ids that the user has confirmed are accurate."

  /** The names of ADVISOR_TOOLS, in their order. */
  const AdvisorToolNames: seq<string> := [
    "lookup_crm_client", "lookup_family_members", "lookup_crm_notes",
    "lookup_prior_policies", "lookup_annual_statements", "extract_document_fields",
    "get_advisor_preferences", "get_carrier_suitability", "select_product", "call_client"]

  /** ADVISOR_TOOLS: one tool per name, in the same order. */
  const AdvisorTools: seq<Tool> := [
    Advisor("lookup_crm_client"), Advisor("lookup_family_members"), Advisor("lookup_crm_notes"),
    Advisor("lookup_prior_policies"), Advisor("lookup_annual_statements"), Advisor("extract_document_fields"),
    Advisor("get_advisor_preferences"), Advisor("get_carrier_suitability"), Advisor("select_product"),
    Advisor("call_client")]

  function ToolName(t: Tool): string
  {
    match t
    case Extract(_) => ExtractToolName
    case Confirm(_) => ConfirmToolName
    case Advisor(n) => n
  }

  /** The tool as the JSON object handed to the model. */
  function ToolJson(t: Tool): Value
  {
    match t
    case Extract(props) =>
      var schema: Value := Obj([("type", Str("object")), ("properties", Obj(props)),
        ("additionalProperties", Bool(false))]);
      Obj([("name", Str(ExtractToolName)), ("description", Str(ExtractDescription)), ("input_schema", schema)])
    case Confirm(ids) =>
      var enumValues: seq<Value> := MapSeq(ids, (i: string) => Str(i));
      var items: Value := Obj([("type", Str("string")), ("enum", Arr(enumValues))]);
      var fieldIds: Value := Obj([("type", Str("array")), ("items", items),
        ("description", Str("List of field IDs confirmed as correct by the user."))]);
      var schema: Value := Obj([("type", Str("object")), ("properties", Obj([("field_ids", fieldIds)])),
        ("required", Arr([Str("field_ids")])), ("additionalProperties", Bool(false))]);
      Obj([("name", Str(ConfirmToolName)), ("description", Str(ConfirmDescription)), ("input_schema", schema)])
    case Advisor(n) => Obj([("name", Str(n))])
  }

  /** The confirmation tool demands its "field_ids" argument and admits no other. */
  lemma ConfirmToolSchema(ids: seq<string>)
    ensures var schema := Get(ToolJson(Confirm(ids)).members, "input_schema");
      schema.Some? && schema.value.Obj? &&
      Get(schema.value.members, "required") == Some(Arr([Str("field_ids")])) &&
      Get(schema.value.members, "additionalProperties") == Some(Bool(false))
  {
    var tool := ToolJson(Confirm(ids));
    var schema := tool.members[2].1;
    ThreeKeys("name", Str(ConfirmToolName), "description", Str(ConfirmDescription), "input_schema", schema);
    var ms := schema.members;
    var tail := [("required", Arr([Str("field_ids")])), ("additionalProperties", Bool(false))];
    assert ms[1..][1..] == tail && tail[1..] == [("additionalProperties", Bool(false))];
    assert Get(tail, "additionalProperties") == Some(Bool(false));
    assert Get(ms, "required") == Get(ms[1..][1..], "required");
    assert Get(ms, "additionalProperties") == Get(ms[1..][1..], "additionalProperties");
  }

  // ---------------------------------------------------------------------------
  // One field as a JSON Schema property

  /** One optional dict entry. */
  function Entry(key: string, v: Option<Value>): seq<(string, Value)>
  {
    if v.Some? then [(key, v.value)] else []
  }

  lemma GetEntry(key: string, v: Option<Value>, rest: seq<(string, Value)>, k: string)
    ensures Get(Entry(key, v) + rest, k) == if k == key && v.Some? then v else Get(rest, k)
  {
    GetAppend(Entry(key, v), rest, k);
  }

  /** The JSON type a field's values take (the "type" of FIELD_TYPE_MAP, "string" for
      a type it does not list). */
  function JsonType(fieldType: string): string
  {
    if fieldType in {"number", "currency"} then "number"
    else if fieldType == "checkbox" then "boolean"
    else "string"
  }

  /** The "format" of FIELD_TYPE_MAP. */
  function TypeFormat(fieldType: string): Option<Value>
  {
    if fieldType == "email" then Some(Str("email"))
    else if fieldType == "date" then Some(Str("date"))
    else None
  }

  /** The "pattern" of FIELD_TYPE_MAP. */
  function TypePattern(fieldType: string): Option<Value>
  {
    if fieldType == "ssn" then Some(Str(SsnPattern)) else None
  }

  /** `validation[key]`, when present. */
  function Rule(validation: map<string, Value>, key: string): Option<Value>
  {
    if key in validation then Some(validation[key]) else None
  }

  function Description(f: TrackedField): string
  {
    if f.labelText != [] then f.labelText else f.fieldId
  }

  function EnumOf(f: TrackedField): Option<Value>
  {
    if f.fieldType == "select" && f.options.Some? && f.options.value != []
    then Some(Arr(OptionValues(f.options.value))) else None
  }

  /** `_field_to_json_schema`.  Every key it assigns is new to the dict (the type's
      own "pattern" suppresses the rule's), so the dict is the type's entries followed
      by the assigned ones in assignment order. */
  function FieldToJsonSchema(f: TrackedField): seq<(string, Value)>
  {
    var t, v := f.fieldType, f.validation;
    Entry("type", Some(Str(JsonType(t))))
    + (Entry("format", TypeFormat(t))
    + (Entry("pattern", TypePattern(t))
    + (Entry("description", Some(Str(Description(f))))
    + (Entry("enum", EnumOf(f))
    + (Entry("minLength", Rule(v, "min_length"))
    + (Entry("maxLength", Rule(v, "max_length"))
    + (Entry("pattern", if TypePattern(t).Some? then None else Rule(v, "pattern"))
    + (Entry("minimum", Rule(v, "min_value"))
    + Entry("maximum", Rule(v, "max_value"))))))))))
  }

  /** A key of the property holds the first of the entries for it. */
  lemma FieldSchemaLookup(f: TrackedField, k: string)
    ensures var t, v := f.fieldType, f.validation;
      Get(FieldToJsonSchema(f), k) ==
        if k == "type" then Some(Str(JsonType(t)))
        else if k == "format" && TypeFormat(t).Some? then TypeFormat(t)
        else if k == "pattern" && TypePattern(t).Some? then TypePattern(t)
        else if k == "description" then Some(Str(Description(f)))
        else if k == "enum" && EnumOf(f).Some? then EnumOf(f)
        else if k == "minLength" && Rule(v, "min_length").Some? then Rule(v, "min_length")
        else if k == "maxLength" && Rule(v, "max_length").Some? then Rule(v, "max_length")
        else if k == "pattern" && TypePattern(t).None? && Rule(v, "pattern").Some? then Rule(v, "pattern")
        else if k == "minimum" && Rule(v, "min_value").Some? then Rule(v, "min_value")
        else if k == "maximum" then Rule(v, "max_value")
        else None
  {
    var t, v := f.fieldType, f.validation;
    var s9 := Entry("maximum", Rule(v, "max_value"));
    var s8 := Entry("minimum", Rule(v, "min_value")) + s9;
    var s7 := Entry("pattern", if TypePattern(t).Some? then None else Rule(v, "pattern")) + s8;
    var s6 := Entry("maxLength", Rule(v, "max_length")) + s7;
    var s5 := Entry("minLength", Rule(v, "min_length")) + s6;
    var s4 := Entry("enum", EnumOf(f)) + s5;
    var s3 := Entry("description", Some(Str(Description(f)))) + s4;
    var s2 := Entry("pattern", TypePattern(t)) + s3;
    var s1 := Entry("format", TypeFormat(t)) + s2;
    GetEntry("type", Some(Str(JsonType(t))), s1, k);
    GetEntry("format", TypeFormat(t), s2, k);
    GetEntry("pattern", TypePattern(t), s3, k);
    GetEntry("description", Some(Str(Description(f))), s4, k);
    GetEntry("enum", EnumOf(f), s5, k);
    GetEntry("minLength", Rule(v, "min_length"), s6, k);
    GetEntry("maxLength", Rule(v, "max_length"), s7, k);
    GetEntry("pattern", if TypePattern(t).Some? then None else Rule(v, "pattern"), s8, k);
    GetEntry("minimum", Rule(v, "min_value"), s9, k);
    GetEntry("maximum", Rule(v, "max_value"), [], k);
    assert s9 == s9 + [];
  }

  /** What the property tells the model about a field: its JSON type, its label, its
      options, and its validation rules under their JSON Schema names; the type's own
      pattern wins over the rule's. */
  lemma FieldSchemaContents(f: TrackedField)
    ensures var schema, v := FieldToJsonSchema(f), f.validation;
      && Get(schema, "type") == Some(Str(JsonType(f.fieldType)))
      && Get(schema, "description") == Some(Str(if f.labelText != [] then f.labelText else f.fieldId))
      && Get(schema, "enum") ==
           (if f.fieldType == "select" && f.options.Some? && f.options.value != []
            then Some(Arr(OptionValues(f.options.value))) else None)
      && Get(schema, "minLength") == (if "min_length" in v then Some(v["min_length"]) else None)
      && Get(schema, "maxLength") == (if "max_length" in v then Some(v["max_length"]) else None)
      && Get(schema, "minimum") == (if "min_value" in v then Some(v["min_value"]) else None)
      && Get(schema, "maximum") == (if "max_value" in v then Some(v["max_value"]) else None)
      && Get(schema, "pattern") ==
           (if f.fieldType == "ssn" then Some(Str(SsnPattern))
            else if "pattern" in v then Some(v["pattern"]) else None)
  {
    FieldSchemaLookup(f, "type");
    FieldSchemaLookup(f, "description");
    FieldSchemaLookup(f, "enum");
    FieldSchemaLookup(f, "minLength");
    FieldSchemaLookup(f, "maxLength");
    FieldSchemaLookup(f, "minimum");
    FieldSchemaLookup(f, "maximum");
    FieldSchemaLookup(f, "pattern");
  }

  // ---------------------------------------------------------------------------
  // The extraction tool

  /** The `properties` dict `build_extraction_tool` fills, one assignment per field. */
  function ExtractionProperties(fs: seq<TrackedField>): seq<(string, Value)>
  {
    PropertiesOf(fs, f => Obj(FieldToJsonSchema(f)))
  }

  /** One assignment `properties[f.field_id] = schema(f)` per field, in order. */
  function PropertiesOf(fs: seq<TrackedField>, schema: TrackedField -> Value): seq<(string, Value)>
  {
    if fs == [] then []
    else Put(PropertiesOf(fs[..|fs| - 1], schema), fs[|fs| - 1].fieldId, schema(fs[|fs| - 1]))
  }

  /** `build_extraction_tool` */
  method BuildExtractionTool(fs: seq<TrackedField>) returns (tool: Tool)
    ensures tool == Extract(ExtractionProperties(fs))
  {
    var properties: seq<(string, Value)> := [];
    var i := 0;
    while i < |fs|
      invariant 0 <= i <= |fs|
      invariant properties == ExtractionProperties(fs[..i])
    {
      assert fs[..i + 1][..i] == fs[..i];
      properties := Put(properties, fs[i].fieldId, Obj(FieldToJsonSchema(fs[i])));
      i := i + 1;
    }
    assert fs[..i] == fs;
    return Extract(properties);
  }

  /** The extraction tool has a property for exactly the ids of its fields. */
  lemma ExtractionPropertiesKeys(fs: seq<TrackedField>, k: string)
    ensures k in Keys(ExtractionProperties(fs)) <==> exists i :: 0 <= i < |fs| && fs[i].fieldId == k
  {
    PropertiesKeys(fs, f => Obj(FieldToJsonSchema(f)), k);
  }

  lemma {:induction false} PropertiesKeys(fs: seq<TrackedField>, schema: TrackedField -> Value, k: string)
    ensures k in Keys(PropertiesOf(fs, schema)) <==> exists i :: 0 <= i < |fs| && fs[i].fieldId == k
  {
    if fs != [] {
      var init := fs[..|fs| - 1];
      PropertiesKeys(init, schema, k);
      KeysPutMember(PropertiesOf(init, schema), fs[|fs| - 1].fieldId, schema(fs[|fs| - 1]), k);
      IdsSnoc(fs, init, k);
    }
  }

  lemma IdsSnoc(fs: seq<TrackedField>, init: seq<TrackedField>, k: string)
    requires fs != [] && init == fs[..|fs| - 1]
    ensures (exists i :: 0 <= i < |fs| && fs[i].fieldId == k) <==>
      (exists i :: 0 <= i < |init| && init[i].fieldId == k) || fs[|fs| - 1].fieldId == k
  {
    if exists i :: 0 <= i < |fs| && fs[i].fieldId == k {
      var i :| 0 <= i < |fs| && fs[i].fieldId == k;
      if i < |init| { assert init[i] == fs[i]; }
    }
    if exists i :: 0 <= i < |init| && init[i].fieldId == k {
      var i :| 0 <= i < |init| && init[i].fieldId == k;
      assert fs[i] == init[i];
    }
  }

  /** With unique ids, each field's property is that field's schema. */
  lemma ExtractionPropertiesValue(fs: seq<TrackedField>, i: nat)
    requires UniqueIds(fs) && i < |fs|
    ensures Get(ExtractionProperties(fs), fs[i].fieldId) == Some(Obj(FieldToJsonSchema(fs[i])))
  {
    PropertiesValue(fs, f => Obj(FieldToJsonSchema(f)), i);
  }

  lemma {:induction false} PropertiesValue(fs: seq<TrackedField>, schema: TrackedField -> Value, i: nat)
    requires UniqueIds(fs) && i < |fs|
    ensures Get(PropertiesOf(fs, schema), fs[i].fieldId) == Some(schema(fs[i]))
  {
    var init := fs[..|fs| - 1];
    var last := fs[|fs| - 1];
    GetPut(PropertiesOf(init, schema), last.fieldId, schema(last), fs[i].fieldId);
    if i < |fs| - 1 {
      assert init[i] == fs[i];
      assert UniqueIds(init);
      PropertiesValue(init, schema, i);
    }
  }

  /** `build_confirm_tool` */
  function ConfirmTool(fs: seq<TrackedField>): (tool: Tool)
    ensures tool.Confirm? && |tool.fieldIds| == |fs|
    ensures forall i :: 0 <= i < |fs| ==> tool.fieldIds[i] == fs[i].fieldId
  {
    Confirm(Ids(fs))
  }

  // ---------------------------------------------------------------------------
  // The tool set of a phase

  /** `list({f.field_id: f for f in fs}.values())`: one field per id, in the order ids
      first appear, the last field given for an id winning. */
  function DedupById(fs: seq<TrackedField>): seq<TrackedField>
  {
    if fs == [] then []
    else
      var prefix := DedupById(fs[..|fs| - 1]);
      var last := fs[|fs| - 1];
      match FindField(prefix, last.fieldId)
      case Some(j) => prefix[j := last]
      case None => prefix + [last]
  }

  /** Deduplication keeps only fields it was given ... */
  lemma {:induction false} DedupByIdMembers(fs: seq<TrackedField>)
    ensures forall f | f in DedupById(fs) :: f in fs
  {
    if fs != [] {
      var init := fs[..|fs| - 1];
      var prefix := DedupById(init);
      var last := fs[|fs| - 1];
      DedupByIdMembers(init);
      assert forall f | f in init :: f in fs;
      match FindField(prefix, last.fieldId)
      case Some(j) => {
        var r := prefix[j := last];
        forall f | f in r ensures f in fs {
          var m :| 0 <= m < |r| && r[m] == f;
          if m != j { assert prefix[m] == f; }
        }
      }
      case None =>
    }
  }

  /** ... keeps every id it was given ... */
  lemma {:induction false} DedupByIdKeys(fs: seq<TrackedField>, k: string)
    ensures (exists g :: g in DedupById(fs) && g.fieldId == k) <==> (exists f :: f in fs && f.fieldId == k)
  {
    if fs != [] {
      var init := fs[..|fs| - 1];
      var prefix := DedupById(init);
      var last := fs[|fs| - 1];
      DedupByIdKeys(init, k);
      var r := DedupById(fs);
      assert forall f | f in fs :: f in init || f == last;
      assert forall f | f in init :: f in fs;
      match FindField(prefix, last.fieldId)
      case Some(j) => {
        assert r == prefix[j := last];
        assert r[j] == last;
        if exists g :: g in r && g.fieldId == k {
          var g :| g in r && g.fieldId == k;
          var m :| 0 <= m < |r| && r[m] == g;
          if m != j { assert prefix[m] == g; } else { assert last in fs; }
        }
        if exists f :: f in fs && f.fieldId == k {
          if k == last.fieldId {
            assert r[j] in r;
          } else {
            var f :| f in init && f.fieldId == k;
            var g :| g in prefix && g.fieldId == k;
            var m :| 0 <= m < |prefix| && prefix[m] == g;
            assert m != j;
            assert r[m] == g;
          }
        }
      }
      case None => {
        assert r == prefix + [last];
        assert r[|r| - 1] == last;
      }
    }
  }

  /** ... and keeps each id once. */
  lemma {:induction false} DedupByIdUnique(fs: seq<TrackedField>)
    ensures UniqueIds(DedupById(fs))
  {
    if fs != [] {
      var init := fs[..|fs| - 1];
      var prefix := DedupById(init);
      var last := fs[|fs| - 1];
      DedupByIdUnique(init);
      match FindField(prefix, last.fieldId)
      case Some(j) => {
        var r := prefix[j := last];
        forall a, b | 0 <= a < b < |r| ensures r[a].fieldId != r[b].fieldId {
          assert r[a].fieldId == prefix[a].fieldId;
          assert r[b].fieldId == prefix[b].fieldId;
        }
      }
      case None =>
    }
  }

  predicate Extractable(f: TrackedField) { f.status == Missing || f.status == Unconfirmed }

  predicate HasValidationError(f: TrackedField) { f.validationError.Some? && f.validationError.value != [] }

  predicate IsResolved(f: TrackedField) { f.status == Confirmed || f.status == Collected }

  predicate IsUnconfirmed(f: TrackedField) { f.status == Unconfirmed }

  predicate IsMissing(f: TrackedField) { f.status == Missing }

  predicate Collectible(f: TrackedField) { IsMissing(f) || HasValidationError(f) }

  predicate AdvisorMode(advisorName: Option<string>) { advisorName.Some? && advisorName.value != [] }

  /** The field tools of one phase, over the active fields. */
  function PhaseTools(phase: SessionPhase, active: seq<TrackedField>): seq<Tool>
  {
    match phase
    case SpotCheck =>
      var unconfirmed := Filter(active, IsUnconfirmed);
      var extractable := Filter(active, Extractable);
      (if unconfirmed != [] then [ConfirmTool(unconfirmed)] else [])
      + (if extractable != [] then [Extract(ExtractionProperties(extractable))] else [])
    case Collecting =>
      var all := DedupById(Filter(active, IsMissing) + Filter(active, HasValidationError));
      if all != [] then [Extract(ExtractionProperties(all))] else []
    case Reviewing =>
      var resolved := Filter(active, IsResolved);
      (if resolved != [] then [ConfirmTool(resolved)] else [])
      + (if active != [] then [Extract(ExtractionProperties(active))] else [])
    case _ => []
  }

  /** `build_tools_for_phase`: the advisor tools when an advisor drives the session,
      then the tools of the phase. */
  function ToolsForPhase(phase: SessionPhase, advisorName: Option<string>, fields: seq<TrackedField>): seq<Tool>
  {
    AdvisorPrefix(advisorName) + PhaseTools(phase, ActiveFields(fields))
  }

  /** `build_tools_for_phase` on the session, building the extraction tool by its loop. */
  method BuildToolsForPhase(state: ConversationState) returns (tools: seq<Tool>)
    ensures tools == ToolsForPhase(state.phase, state.advisorName, state.fields)
  {
    var active := ActiveFields(state.fields);
    var advisor: seq<Tool> := if AdvisorMode(state.advisorName) then AdvisorTools else [];
    var phaseTools: seq<Tool> := [];
    match state.phase {
      case SpotCheck =>
        var unconfirmed := Filter(active, IsUnconfirmed);
        if unconfirmed != [] {
          phaseTools := [ConfirmTool(unconfirmed)];
        }
        var extractable := Filter(active, Extractable);
        if extractable != [] {
          var t := BuildExtractionTool(extractable);
          phaseTools := phaseTools + [t];
        }
      case Collecting =>
        var all := DedupById(Filter(active, IsMissing) + Filter(active, HasValidationError));
        if all != [] {
          var t := BuildExtractionTool(all);
          phaseTools := [t];
        }
      case Reviewing =>
        var resolved := Filter(active, IsResolved);
        if resolved != [] {
          phaseTools := [ConfirmTool(resolved)];
        }
        if active != [] {
          var t := BuildExtractionTool(active);
          phaseTools := phaseTools + [t];
        }
      case _ =>
    }
    assert phaseTools == PhaseTools(state.phase, active);
    tools := advisor + phaseTools;
  }

  // ---------------------------------------------------------------------------
  // What each phase offers

  /** The field ids the extraction tools of `tools` accept. */
  ghost function ExtractableIds(tools: seq<Tool>): set<string>
  {
    if tools == [] then {}
    else (if tools[0].Extract? then set k | k in Keys(tools[0].properties) else {}) + ExtractableIds(tools[1..])
  }

  /** The field ids the confirmation tools of `tools` enumerate. */
  ghost function ConfirmableIds(tools: seq<Tool>): set<string>
  {
    if tools == [] then {}
    else (if tools[0].Confirm? then set k | k in tools[0].fieldIds else {}) + ConfirmableIds(tools[1..])
  }

  ghost function IdsWhere(fs: seq<TrackedField>, p: TrackedField -> bool): set<string>
  {
    set f | f in fs && p(f) :: f.fieldId
  }

  lemma {:induction false} IdsOfConcat(a: seq<Tool>, b: seq<Tool>)
    ensures ExtractableIds(a + b) == ExtractableIds(a) + ExtractableIds(b)
    ensures ConfirmableIds(a + b) == ConfirmableIds(a) + ConfirmableIds(b)
  {
    if a == [] {
      assert a + b == b;
    } else {
      assert (a + b)[1..] == a[1..] + b;
      IdsOfConcat(a[1..], b);
    }
  }

  lemma ExtractToolIds(fs: seq<TrackedField>)
    ensures ExtractableIds([Extract(ExtractionProperties(fs))]) == set f | f in fs :: f.fieldId
  {
    var props := ExtractionProperties(fs);
    assert [Extract(props)][1..] == [];
    forall k ensures k in Keys(props) <==> k in set f | f in fs :: f.fieldId {
      ExtractionPropertiesKeys(fs, k);
      if k in set f | f in fs :: f.fieldId {
        var f :| f in fs && f.fieldId == k;
        var i :| 0 <= i < |fs| && fs[i] == f;
      }
    }
  }

  lemma ConfirmToolIds(fs: seq<TrackedField>)
    ensures ConfirmableIds([ConfirmTool(fs)]) == set f | f in fs :: f.fieldId
  {
    var ids := ConfirmTool(fs).fieldIds;
    assert [ConfirmTool(fs)][1..] == [];
    forall k ensures k in ids <==> k in set f | f in fs :: f.fieldId {
      if k in ids {
        var i :| 0 <= i < |ids| && ids[i] == k;
        assert fs[i] in fs;
      }
      if k in set f | f in fs :: f.fieldId {
        var f :| f in fs && f.fieldId == k;
        var i :| 0 <= i < |fs| && fs[i] == f;
        assert ids[i] == k;
      }
    }
  }

  lemma SingleToolIds(t: Tool)
    ensures ExtractableIds([t]) == (if t.Extract? then set k | k in Keys(t.properties) else {})
    ensures ConfirmableIds([t]) == (if t.Confirm? then set k | k in t.fieldIds else {})
  {
    assert [t][1..] == [];
  }

  lemma FilterIds(fs: seq<TrackedField>, p: TrackedField -> bool)
    ensures (set f | f in Filter(fs, p) :: f.fieldId) == IdsWhere(fs, p)
  {
    forall f ensures f in Filter(fs, p) <==> f in fs && p(f) { FilterMembers(fs, p, f); }
  }

  lemma AdvisorToolsOfferNoFields()
    ensures ExtractableIds(AdvisorTools) == {} && ConfirmableIds(AdvisorTools) == {}
  {
    forall t | t in AdvisorTools ensures t.Advisor? {
      var i :| 0 <= i < |AdvisorTools| && AdvisorTools[i] == t;
    }
    NoFieldsFromAdvisorTools(AdvisorTools);
  }

  lemma {:induction false} NoFieldsFromAdvisorTools(tools: seq<Tool>)
    requires forall t | t in tools :: t.Advisor?
    ensures ExtractableIds(tools) == {} && ConfirmableIds(tools) == {}
  {
    if tools != [] {
      assert tools[0] in tools;
      NoFieldsFromAdvisorTools(tools[1..]);
    }
  }

  /** The advisor tools, or none, in front of tools that are not advisor tools. */
  function AdvisorPrefix(advisorName: Option<string>): seq<Tool>
  {
    if AdvisorMode(advisorName) then AdvisorTools else []
  }

  lemma AdvisorPrefixOffers(advisorName: Option<string>, pt: seq<Tool>)
    requires forall t | t in pt :: !t.Advisor?
    ensures forall n | n in AdvisorToolNames :: (Advisor(n) in AdvisorPrefix(advisorName) + pt <==> AdvisorMode(advisorName))
  {
    forall n | n in AdvisorToolNames
      ensures Advisor(n) in AdvisorTools
    {
      var i :| 0 <= i < |AdvisorToolNames| && AdvisorToolNames[i] == n;
      assert AdvisorTools[i] == Advisor(n);
    }
  }

  lemma AdvisorPrefixAddsNoFields(advisorName: Option<string>, pt: seq<Tool>)
    ensures ExtractableIds(AdvisorPrefix(advisorName) + pt) == ExtractableIds(pt)
    ensures ConfirmableIds(AdvisorPrefix(advisorName) + pt) == ConfirmableIds(pt)
  {
    AdvisorToolsOfferNoFields();
    IdsOfConcat(AdvisorPrefix(advisorName), pt);
  }

  /** With an advisor the session offers every advisor tool; without one, none. */
  lemma AdvisorToolsOffered(phase: SessionPhase, advisorName: Option<string>, fields: seq<TrackedField>)
    ensures forall n | n in AdvisorToolNames ::
      (Advisor(n) in ToolsForPhase(phase, advisorName, fields) <==> AdvisorMode(advisorName))
  {
    PhaseToolsAreFieldTools(phase, ActiveFields(fields));
    AdvisorPrefixOffers(advisorName, PhaseTools(phase, ActiveFields(fields)));
  }

  /** The advisor tools add no field to what the phase offers. */
  lemma AdvisorToolsAddNoFields(phase: SessionPhase, advisorName: Option<string>, fields: seq<TrackedField>)
    ensures ExtractableIds(ToolsForPhase(phase, advisorName, fields)) == ExtractableIds(PhaseTools(phase, ActiveFields(fields)))
    ensures ConfirmableIds(ToolsForPhase(phase, advisorName, fields)) == ConfirmableIds(PhaseTools(phase, ActiveFields(fields)))
  {
    AdvisorPrefixAddsNoFields(advisorName, PhaseTools(phase, ActiveFields(fields)));
  }

  lemma PhaseToolsAreFieldTools(phase: SessionPhase, active: seq<TrackedField>)
    ensures forall t | t in PhaseTools(phase, active) :: !t.Advisor?
  {
  }

  lemma SpotCheckPhaseTools(active: seq<TrackedField>)
    ensures ConfirmableIds(PhaseTools(SpotCheck, active)) == IdsWhere(active, IsUnconfirmed)
    ensures ExtractableIds(PhaseTools(SpotCheck, active)) == IdsWhere(active, Extractable)
  {
    var unconfirmed := Filter(active, IsUnconfirmed);
    var extractable := Filter(active, Extractable);
    var c: seq<Tool> := if unconfirmed != [] then [ConfirmTool(unconfirmed)] else [];
    var e: seq<Tool> := if extractable != [] then [Extract(ExtractionProperties(extractable))] else [];
    assert PhaseTools(SpotCheck, active) == c + e;
    IdsOfConcat(c, e);
    FilterIds(active, IsUnconfirmed);
    FilterIds(active, Extractable);
    ExtractToolIds(extractable);
    ConfirmToolIds(unconfirmed);
    SingleToolIds(ConfirmTool(unconfirmed));
    SingleToolIds(Extract(ExtractionProperties(extractable)));
  }

  /** SPOT_CHECK: confirm the active unconfirmed fields; extract the active missing or
      unconfirmed ones. */
  lemma SpotCheckOffers(advisorName: Option<string>, fields: seq<TrackedField>)
    ensures ConfirmableIds(ToolsForPhase(SpotCheck, advisorName, fields)) == IdsWhere(ActiveFields(fields), IsUnconfirmed)
    ensures ExtractableIds(ToolsForPhase(SpotCheck, advisorName, fields)) == IdsWhere(ActiveFields(fields), Extractable)
  {
    AdvisorToolsAddNoFields(SpotCheck, advisorName, fields);
    SpotCheckPhaseTools(ActiveFields(fields));
  }

  lemma CollectingPhaseTools(active: seq<TrackedField>)
    ensures ConfirmableIds(PhaseTools(Collecting, active)) == {}
    ensures ExtractableIds(PhaseTools(Collecting, active)) == IdsWhere(active, Collectible)
  {
    var both := Filter(active, IsMissing) + Filter(active, HasValidationError);
    var all := DedupById(both);
    var e: seq<Tool> := if all != [] then [Extract(ExtractionProperties(all))] else [];
    assert PhaseTools(Collecting, active) == e;
    ExtractToolIds(all);
    SingleToolIds(Extract(ExtractionProperties(all)));
    forall f ensures f in both <==> f in active && Collectible(f) {
      FilterMembers(active, IsMissing, f);
      FilterMembers(active, HasValidationError, f);
    }
    forall k ensures k in (set f | f in all :: f.fieldId) <==> k in IdsWhere(active, Collectible) {
      DedupByIdKeys(both, k);
    }
  }

  /** COLLECTING: extract the active fields that are missing or carry a validation
      error; confirm nothing. */
  lemma CollectingOffers(advisorName: Option<string>, fields: seq<TrackedField>)
    ensures ConfirmableIds(ToolsForPhase(Collecting, advisorName, fields)) == {}
    ensures ExtractableIds(ToolsForPhase(Collecting, advisorName, fields)) == IdsWhere(ActiveFields(fields), Collectible)
  {
    AdvisorToolsAddNoFields(Collecting, advisorName, fields);
    CollectingPhaseTools(ActiveFields(fields));
  }

  lemma ReviewingPhaseTools(active: seq<TrackedField>)
    ensures ConfirmableIds(PhaseTools(Reviewing, active)) == IdsWhere(active, IsResolved)
    ensures ExtractableIds(PhaseTools(Reviewing, active)) == set f | f in active :: f.fieldId
  {
    var resolved := Filter(active, IsResolved);
    var c: seq<Tool> := if resolved != [] then [ConfirmTool(resolved)] else [];
    var e: seq<Tool> := if active != [] then [Extract(ExtractionProperties(active))] else [];
    assert PhaseTools(Reviewing, active) == c + e;
    IdsOfConcat(c, e);
    FilterIds(active, IsResolved);
    ExtractToolIds(active);
    ConfirmToolIds(resolved);
    SingleToolIds(ConfirmTool(resolved));
    SingleToolIds(Extract(ExtractionProperties(active)));
  }

  /** REVIEWING: confirm the resolved active fields; extract any active field. */
  lemma ReviewingOffers(advisorName: Option<string>, fields: seq<TrackedField>)
    ensures ConfirmableIds(ToolsForPhase(Reviewing, advisorName, fields)) == IdsWhere(ActiveFields(fields), IsResolved)
    ensures ExtractableIds(ToolsForPhase(Reviewing, advisorName, fields)) == set f | f in ActiveFields(fields) :: f.fieldId
  {
    AdvisorToolsAddNoFields(Reviewing, advisorName, fields);
    ReviewingPhaseTools(ActiveFields(fields));
  }

  /** COMPLETE and SUBMITTED offer no field tool: only the advisor tools, if any. */
  lemma TerminalPhasesOfferNoFieldTools(phase: SessionPhase, advisorName: Option<string>, fields: seq<TrackedField>)
    requires IsTerminal(phase)
    ensures ToolsForPhase(phase, advisorName, fields) == if AdvisorMode(advisorName) then AdvisorTools else []
    ensures ExtractableIds(ToolsForPhase(phase, advisorName, fields)) == {}
    ensures ConfirmableIds(ToolsForPhase(phase, advisorName, fields)) == {}
  {
    assert PhaseTools(phase, ActiveFields(fields)) == [];
    var adv: seq<Tool> := if AdvisorMode(advisorName) then AdvisorTools else [];
    assert ToolsForPhase(phase, advisorName, fields) == adv + [];
    assert adv + [] == adv;
    AdvisorToolsOfferNoFields();
  }
}
