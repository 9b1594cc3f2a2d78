/** The conversation engine: session creation, the processor of the field tools
    the model calls, the phase machine, one conversational turn, and submission
    (ai-service/app/services/conversation_service.py). */
module ConversationService {
  import opened Values
  import opened Conversation
  import FieldValidation
  import Extraction
  import PrefillAgent

  // ---------------------------------------------------------------------------
  // Session creation

  /** `known_data.get(fid)`, with Null for an absent key. */
  function KnownValue(known: seq<(string, Value)>, id: string): Value
  {
    GetOr(known, id, Null)
  }

  /** The tracked field `create_session` makes from one definition. */
  function TrackField(d: FieldDefinition, known: seq<(string, Value)>): TrackedField
  {
    var v := KnownValue(known, d.fieldId);
    TrackedField(d.fieldId, v, if v != Null then Unconfirmed else Missing,
                 if d.labelText.Some? then d.labelText.value else d.fieldId,
                 if d.fieldType.Some? then d.fieldType.value else "text",
                 d.required, d.validation, d.options, d.conditions, None)
  }

  /** `fields[f.field_id] = f`: replaces the field with that id where it stands, or
      appends it. */
  function PutField(fs: seq<TrackedField>, f: TrackedField): seq<TrackedField>
  {
    match FindField(fs, f.fieldId)
    case Some(i) => fs[i := f]
    case None => fs + [f]
  }

  /** Every field definition, step by step. */
  function Definitions(steps: seq<StepDefinition>): seq<FieldDefinition>
  {
    if steps == [] then [] else Definitions(steps[..|steps| - 1]) + steps[|steps| - 1].fields
  }

  /** The field dictionary the definitions build, in order. */
  function Track(defs: seq<FieldDefinition>, known: seq<(string, Value)>): seq<TrackedField>
  {
    if defs == [] then [] else PutField(Track(defs[..|defs| - 1], known), TrackField(defs[|defs| - 1], known))
  }

  function StepRecordOf(s: StepDefinition): StepRecord
  {
    StepRecord(if s.stepId.Some? then s.stepId.value else "",
               if s.title.Some? then s.title.value else "", s.fields)
  }

  /** The steps as the session keeps them, in order. */
  function StepRecords(questions: seq<StepDefinition>): seq<StepRecord>
  {
    if questions == [] then []
    else StepRecords(questions[..|questions| - 1]) + [StepRecordOf(questions[|questions| - 1])]
  }

  function InitialPhase(fs: seq<TrackedField>): SessionPhase
  {
    if exists f | f in fs :: f.status == Unconfirmed then SpotCheck else Collecting
  }

  /** A field as create_session leaves it: the known value (Null when unknown),
      UNCONFIRMED exactly when that value is not null and MISSING otherwise, and no
      validation error. */
  predicate FreshlyTracked(f: TrackedField, known: seq<(string, Value)>)
  {
    f.value == KnownValue(known, f.fieldId) &&
    f.status == (if f.value != Null then Unconfirmed else Missing) &&
    f.validationError == None
  }

  /** The ids of the definitions, in order. */
  function DefinedIds(defs: seq<FieldDefinition>): seq<string>
  {
    if defs == [] then [] else DefinedIds(defs[..|defs| - 1]) + [defs[|defs| - 1].fieldId]
  }

  lemma PutFieldUnique(fs: seq<TrackedField>, f: TrackedField)
    requires UniqueIds(fs)
    ensures UniqueIds(PutField(fs, f))
    ensures forall id :: FindField(PutField(fs, f), id).Some? <==> FindField(fs, id).Some? || id == f.fieldId
  {
    forall id ensures FindField(PutField(fs, f), id).Some? <==> FindField(fs, id).Some? || id == f.fieldId {
      var r := PutField(fs, f);
      if FindField(r, id).Some? {
        var k := FindField(r, id).value;
        if r[k].fieldId != f.fieldId {
          assert fs[k] == r[k];
        }
      }
      if FindField(fs, id).Some? {
        var k := FindField(fs, id).value;
        if id != f.fieldId {
          assert r[k] == fs[k];
        }
      }
      if id == f.fieldId {
        match FindField(fs, f.fieldId)
        case Some(i) => assert r[i] == f;
        case None => assert r[|fs|] == f;
      }
    }
  }

  /** PutField leaves the other fields where they are ... */
  lemma PutFieldKeeps(fs: seq<TrackedField>, f: TrackedField, k: nat)
    requires UniqueIds(fs) && k < |fs| && fs[k].fieldId != f.fieldId
    ensures k < |PutField(fs, f)| && PutField(fs, f)[k] == fs[k]
  {
  }

  /** ... and the new field is found under its id. */
  lemma PutFieldPlaces(fs: seq<TrackedField>, f: TrackedField)
    requires UniqueIds(fs)
    ensures FindField(PutField(fs, f), f.fieldId).Some?
    ensures PutField(fs, f)[FindField(PutField(fs, f), f.fieldId).value] == f
  {
    PutFieldUnique(fs, f);
    var r := PutField(fs, f);
    match FindField(fs, f.fieldId)
    case Some(i) => FindUnique(r, i);
    case None => FindUnique(r, |fs|);
  }

  /** The dictionary has one field per distinct id among the definitions, each
      created as FreshlyTracked describes. */
  lemma {:induction false} TrackFields(defs: seq<FieldDefinition>, known: seq<(string, Value)>)
    ensures UniqueIds(Track(defs, known))
    ensures forall k :: 0 <= k < |Track(defs, known)| ==> FreshlyTracked(Track(defs, known)[k], known)
    ensures forall id :: FindField(Track(defs, known), id).Some? <==> id in DefinedIds(defs)
  {
    if defs != [] {
      var init := defs[..|defs| - 1];
      TrackFields(init, known);
      PutFieldUnique(Track(init, known), TrackField(defs[|defs| - 1], known));
    }
  }

  /** When an id is defined more than once, the last definition wins. */
  lemma {:induction false} TrackLastDefinitionWins(defs: seq<FieldDefinition>, known: seq<(string, Value)>, j: nat)
    requires j < |defs| && forall m :: j < m < |defs| ==> defs[m].fieldId != defs[j].fieldId
    ensures FindField(Track(defs, known), defs[j].fieldId).Some?
    ensures Track(defs, known)[FindField(Track(defs, known), defs[j].fieldId).value] == TrackField(defs[j], known)
  {
    var init := defs[..|defs| - 1];
    var before := Track(init, known);
    var f := TrackField(defs[|defs| - 1], known);
    TrackFields(init, known);
    if j == |defs| - 1 {
      PutFieldPlaces(before, f);
    } else {
      TrackLastDefinitionWins(init, known, j);
      var k := FindField(before, defs[j].fieldId).value;
      PutFieldKeeps(before, f, k);
      TrackFields(defs, known);
      FindUnique(Track(defs, known), k);
    }
  }

  /** A session starts in SPOT_CHECK exactly when some defined field has a non-null
      known value, and in COLLECTING otherwise. */
  lemma InitialPhaseIff(questions: seq<StepDefinition>, known: seq<(string, Value)>)
    ensures InitialPhase(Track(Definitions(questions), known)) == SpotCheck <==>
      exists id :: id in DefinedIds(Definitions(questions)) && KnownValue(known, id) != Null
  {
    var defs := Definitions(questions);
    var fs := Track(defs, known);
    TrackFields(defs, known);
    if exists f | f in fs :: f.status == Unconfirmed {
      var f :| f in fs && f.status == Unconfirmed;
      var k :| 0 <= k < |fs| && fs[k] == f;
      assert FindField(fs, f.fieldId).Some?;
      assert FreshlyTracked(fs[k], known);
    }
    if exists id :: id in DefinedIds(defs) && KnownValue(known, id) != Null {
      var id :| id in DefinedIds(defs) && KnownValue(known, id) != Null;
      var k := FindField(fs, id).value;
      assert FreshlyTracked(fs[k], known);
      assert fs[k] in fs;
    }
  }

  /** `str()` of a natural number. */
  function NatText(n: nat): string
  {
    var digit := ['0' + (n % 10) as char];
    if n < 10 then digit else NatText(n / 10) + digit
  }

  /** The instruction handed to the model for a SPOT_CHECK greeting: the first five
      unconfirmed fields as "label: value", and how many more there are. */
  function SpotCheckInstruction(unconfirmed: seq<TrackedField>, advisorName: Option<string>, prims: Primitives): string
  {
    var shown := if |unconfirmed| > 5 then unconfirmed[..5] else unconfirmed;
    var summary := Join(", ", MapSeq(shown, (f: TrackedField) => f.labelText + ": " + PyStr(f.value, prims)));
    var more := if |unconfirmed| > 5 then " (and " + NatText(|unconfirmed| - 5) + " more)" else "";
    var namePart := if Extraction.AdvisorMode(advisorName) then " Address the advisor as " + advisorName.value + "." else "";
    "Generate a friendly greeting." + namePart + " We have some information on file already. "
    + "Summarize this known data naturally: " + summary + more + ". " + "Ask if it all looks correct."
  }

  /** `_generate_greeting`; the model's answer to the SPOT_CHECK instruction is `greeter`. */
  function Greeting(phase: SessionPhase, fs: seq<TrackedField>, advisorName: Option<string>,
                    clientContext: seq<(string, Value)>, greeter: string -> string, prims: Primitives): string
  {
    if phase == SpotCheck then greeter(SpotCheckInstruction(UnconfirmedFields(fs), advisorName, prims))
    else
      var name := if Extraction.AdvisorMode(advisorName) then advisorName.value else "there";
      if clientContext != [] then
        "Hi " + name + "! I see you've selected "
        + PyStr(GetOr(clientContext, "display_name", Str("your client")), prims)
        + ". I'll pull up their information right away. Just say the word and "
        + "I'll search the CRM, review their documents, and check their policies."
      else "Hi " + name + "! What client would you like to work on today?"
  }

  // ---------------------------------------------------------------------------
  // The field tools: process_tool_calls

  /** One entry of `updated_fields`: an accepted value (status COLLECTED), a rejected
      one (the field's unchanged status and the validator's message), or a
      confirmation (status CONFIRMED and the field's value). */
  datatype FieldUpdate =
    | Accepted(fieldId: string, value: Value)
    | Rejected(fieldId: string, status: FieldStatus, error: string)
    | ConfirmedValue(fieldId: string, value: Value)

  /** `uf.get("value")` */
  function UpdateValue(u: FieldUpdate): Value
  {
    match u
    case Accepted(_, v) => v
    case Rejected(_, _, _) => Null
    case ConfirmedValue(_, v) => v
  }

  /** The effect of part of one tool call: the fields, the update records, and the
      ids it accepted or confirmed. */
  datatype Step = Step(fields: seq<TrackedField>, updates: seq<FieldUpdate>, ids: seq<Value>)

  /** One `field_id: value` pair of an extraction call. */
  function ExtractEntry(fs: seq<TrackedField>, id: string, v: Value, prims: Primitives): Step
  {
    if v == Null then Step(fs, [], [])
    else match FindField(fs, id)
      case None => Step(fs, [], [])
      case Some(i) =>
        var r := FieldValidation.ValidateField(fs[i], v, prims);
        if r.0 then
          Step(fs[i := fs[i].(value := v, status := Collected, validationError := None)], [Accepted(id, v)], [Str(id)])
        else
          Step(fs[i := fs[i].(validationError := r.1)], [Rejected(id, fs[i].status, r.1.value)], [])
  }

  /** The pairs of an extraction call, in order. */
  function ExtractAll(fs: seq<TrackedField>, entries: seq<(string, Value)>, prims: Primitives): Step
  {
    if entries == [] then Step(fs, [], [])
    else
      var before := ExtractAll(fs, entries[..|entries| - 1], prims);
      var e := entries[|entries| - 1];
      var s := ExtractEntry(before.fields, e.0, e.1, prims);
      Step(s.fields, before.updates + s.updates, before.ids + s.ids)
  }

  /** Iterating `inp.get("field_ids", [])`: a list's items, a string's characters, a
      dict's keys. */
  function ConfirmTargets(input: seq<(string, Value)>): (r: seq<Value>)
    ensures var ids := GetOr(input, "field_ids", Arr([]));
      (ids.Arr? ==> r == ids.items) &&
      (ids.Str? ==> |r| == |ids.s| && forall i :: 0 <= i < |r| ==> r[i] == Str([ids.s[i]])) &&
      (ids.Obj? ==> |r| == |ids.members| && forall i :: 0 <= i < |r| ==> r[i] == Str(ids.members[i].0)) &&
      (!ids.Arr? && !ids.Str? && !ids.Obj? ==> r == [])
  {
    match GetOr(input, "field_ids", Arr([]))
    case Arr(xs) => xs
    case Str(s) => MapSeq(s, (c: char) => Str([c]))
    case Obj(ms) => MapSeq(Keys(ms), (k: string) => Str(k))
    case _ => []
  }

  predicate Confirmable(f: TrackedField)
  {
    f.status == Unconfirmed || f.status == Confirmed || f.status == Collected
  }

  /** One id of a confirmation call. */
  function ConfirmEntry(fs: seq<TrackedField>, fid: Value): Step
  {
    var found := if fid.Str? then FindField(fs, fid.s) else None;
    if found.Some? && Confirmable(fs[found.value]) then
      var i := found.value;
      Step(fs[i := fs[i].(status := Confirmed, validationError := None)], [ConfirmedValue(fid.s, fs[i].value)], [fid])
    else Step(fs, [], [])
  }

  function ConfirmAll(fs: seq<TrackedField>, targets: seq<Value>): Step
  {
    if targets == [] then Step(fs, [], [])
    else
      var before := ConfirmAll(fs, targets[..|targets| - 1]);
      var s := ConfirmEntry(before.fields, targets[|targets| - 1]);
      Step(s.fields, before.updates + s.updates, before.ids + s.ids)
  }

  /** The truthy validation errors of all fields, as reported after an extraction
      that accepted nothing. */
  function ErrorTexts(fs: seq<TrackedField>): seq<Value>
  {
    MapSeq(Filter(fs, Extraction.HasValidationError),
           (f: TrackedField) => Str(if f.validationError.Some? then f.validationError.value else ""))
  }

  datatype CallEffect = CallEffect(fields: seq<TrackedField>, updates: seq<FieldUpdate>, text: string)

  /** One tool call and the result text it is answered with. */
  function ApplyCall(fs: seq<TrackedField>, c: ToolCall, prims: Primitives): CallEffect
  {
    if c.name == Extraction.ExtractToolName then
      var s := ExtractAll(fs, c.input, prims);
      CallEffect(s.fields, s.updates,
        if s.ids != [] then "Accepted fields: " + prims.reprText(Arr(s.ids))
        else "Validation errors: " + prims.reprText(Arr(ErrorTexts(s.fields))))
    else if c.name == Extraction.ConfirmToolName then
      var s := ConfirmAll(fs, ConfirmTargets(c.input));
      CallEffect(s.fields, s.updates, "Confirmed fields: " + prims.reprText(Arr(s.ids)))
    else
      CallEffect(fs, [], "Unknown tool: " + c.name)
  }

  /** The fields, `updated_fields` and the result text per tool-call id after a batch. */
  datatype Processed = Processed(fields: seq<TrackedField>, updates: seq<FieldUpdate>, results: map<string, string>)

  function ApplyCalls(fs: seq<TrackedField>, calls: seq<ToolCall>, prims: Primitives): Processed
  {
    if calls == [] then Processed(fs, [], map[])
    else
      var before := ApplyCalls(fs, calls[..|calls| - 1], prims);
      var c := calls[|calls| - 1];
      var e := ApplyCall(before.fields, c, prims);
      Processed(e.fields, before.updates + e.updates, before.results[c.id := e.text])
  }

  /** The session's settings (steps, callback, model, advisor and client context) are
      as they were; its id and creation time are constants. */
  twostate predicate SettingsKept(state: ConversationState)
    reads state
  {
    state.steps == old(state.steps) && state.callbackUrl == old(state.callbackUrl) &&
    state.modelOverride == old(state.modelOverride) && state.advisorName == old(state.advisorName) &&
    state.clientContext == old(state.clientContext)
  }

  /** Everything of the session but its fields is as it was. */
  twostate predicate OnlyFieldsChanged(state: ConversationState)
    reads state
  {
    SettingsKept(state) && state.phase == old(state.phase) &&
    state.messages == old(state.messages) && state.submittedAt == old(state.submittedAt)
  }

  /** The pairs of one extraction call, applied to the session's fields in place;
      answers the accepted ids and the update records. */
  method ExtractInto(state: ConversationState, entries: seq<(string, Value)>, prims: Primitives)
    returns (accepted: seq<Value>, updates: seq<FieldUpdate>)
    modifies state
    ensures Step(state.fields, updates, accepted) == ExtractAll(old(state.fields), entries, prims)
    ensures OnlyFieldsChanged(state)
  {
    ghost var before := state.fields;
    accepted := [];
    updates := [];
    var j := 0;
    while j < |entries|
      invariant 0 <= j <= |entries|
      invariant Step(state.fields, updates, accepted) == ExtractAll(before, entries[..j], prims)
      invariant OnlyFieldsChanged(state)
    {
      assert entries[..j + 1][..j] == entries[..j];
      var ids, ups := ExtractEntryInto(state, entries[j].0, entries[j].1, prims);
      accepted := accepted + ids;
      updates := updates + ups;
      j := j + 1;
    }
    assert entries[..j] == entries;
  }

  /** One pair of an extraction call, applied to the session's fields in place. */
  method ExtractEntryInto(state: ConversationState, fid: string, v: Value, prims: Primitives)
    returns (accepted: seq<Value>, updates: seq<FieldUpdate>)
    modifies state
    ensures Step(state.fields, updates, accepted) == ExtractEntry(old(state.fields), fid, v, prims)
    ensures OnlyFieldsChanged(state)
  {
    accepted, updates := [], [];
    if v != Null {
      var k := FindField(state.fields, fid);
      if k.Some? {
        var f := state.fields[k.value];
        var r := FieldValidation.ValidateField(f, v, prims);
        if r.0 {
          state.fields := state.fields[k.value := f.(value := v, status := Collected, validationError := None)];
          accepted := [Str(fid)];
          updates := [Accepted(fid, v)];
        } else {
          state.fields := state.fields[k.value := f.(validationError := r.1)];
          updates := [Rejected(fid, f.status, r.1.value)];
        }
      }
    }
  }

  /** The ids of one confirmation call, applied to the session's fields in place;
      answers the confirmed ids and the update records. */
  method ConfirmInto(state: ConversationState, targets: seq<Value>)
    returns (confirmed: seq<Value>, updates: seq<FieldUpdate>)
    modifies state
    ensures Step(state.fields, updates, confirmed) == ConfirmAll(old(state.fields), targets)
    ensures OnlyFieldsChanged(state)
  {
    ghost var before := state.fields;
    confirmed := [];
    updates := [];
    var j := 0;
    while j < |targets|
      invariant 0 <= j <= |targets|
      invariant Step(state.fields, updates, confirmed) == ConfirmAll(before, targets[..j])
      invariant OnlyFieldsChanged(state)
    {
      var fid := targets[j];
      assert targets[..j + 1][..j] == targets[..j];
      var k := if fid.Str? then FindField(state.fields, fid.s) else None;
      if k.Some? && Confirmable(state.fields[k.value]) {
        var f := state.fields[k.value];
        state.fields := state.fields[k.value := f.(status := Confirmed, validationError := None)];
        confirmed := confirmed + [fid];
        updates := updates + [ConfirmedValue(fid.s, f.value)];
      }
      j := j + 1;
    }
    assert targets[..j] == targets;
  }

  /** `process_tool_calls`: updates the fields in place, call by call. */
  method ProcessToolCalls(calls: seq<ToolCall>, state: ConversationState, prims: Primitives)
    returns (results: map<string, string>, updated: seq<FieldUpdate>)
    modifies state
    ensures Processed(state.fields, updated, results) == ApplyCalls(old(state.fields), calls, prims)
    ensures OnlyFieldsChanged(state)
  {
    results := map[];
    updated := [];
    ghost var start := state.fields;
    var i := 0;
    while i < |calls|
      invariant 0 <= i <= |calls|
      invariant Processed(state.fields, updated, results) == ApplyCalls(start, calls[..i], prims)
      invariant OnlyFieldsChanged(state)
    {
      var c := calls[i];
      assert calls[..i + 1][..i] == calls[..i];
      if c.name == Extraction.ExtractToolName {
        var accepted, updates := ExtractInto(state, c.input, prims);
        updated := updated + updates;
        if accepted != [] {
          results := results[c.id := "Accepted fields: " + prims.reprText(Arr(accepted))];
        } else {
          results := results[c.id := "Validation errors: " + prims.reprText(Arr(ErrorTexts(state.fields)))];
        }
      } else if c.name == Extraction.ConfirmToolName {
        var confirmed, updates := ConfirmInto(state, ConfirmTargets(c.input));
        updated := updated + updates;
        results := results[c.id := "Confirmed fields: " + prims.reprText(Arr(confirmed))];
      } else {
        results := results[c.id := "Unknown tool: " + c.name];
      }
      i := i + 1;
    }
    assert calls[..i] == calls;
  }

  // ---------------------------------------------------------------------------
  // What the field tools can and cannot do

  /** The parts of a field the tools never change. */
  predicate SameConfig(f: TrackedField, g: TrackedField)
  {
    f.fieldId == g.fieldId && f.labelText == g.labelText && f.fieldType == g.fieldType &&
    f.required == g.required && f.validation == g.validation && f.options == g.options &&
    f.conditions == g.conditions
  }

  /** MISSING < UNCONFIRMED < CONFIRMED = COLLECTED */
  function StatusRank(s: FieldStatus): nat
  {
    match s
    case Missing => 0
    case Unconfirmed => 1
    case Confirmed => 2
    case Collected => 2
  }

  /** A value the validator accepts for the field. */
  predicate Validated(f: TrackedField, prims: Primitives)
  {
    f.value != Null && FieldValidation.ValidateField(f, f.value, prims).0
  }

  /** What a batch of tool calls may do to the fields: the same fields in the same
      order with the same configuration; no status moves back; a changed value, and
      any way out of MISSING, carries a value the validator accepts, and a field whose
      value changed is CONFIRMED or COLLECTED. */
  ghost predicate Progressed(fs: seq<TrackedField>, gs: seq<TrackedField>, prims: Primitives)
  {
    |fs| == |gs| &&
    forall k :: 0 <= k < |fs| ==>
      SameConfig(fs[k], gs[k]) &&
      StatusRank(gs[k].status) >= StatusRank(fs[k].status) &&
      (gs[k].value != fs[k].value ==> Validated(gs[k], prims) && StatusRank(gs[k].status) == 2) &&
      (fs[k].status == Missing && gs[k].status != Missing ==> Validated(gs[k], prims))
  }

  /** The validator reads only a field's configuration. */
  lemma ValidationReadsConfig(f: TrackedField, g: TrackedField, v: Value, prims: Primitives)
    requires SameConfig(f, g)
    ensures FieldValidation.ValidateField(f, v, prims) == FieldValidation.ValidateField(g, v, prims)
  {
    assert FieldValidation.TypeCheck(f, v, prims) == FieldValidation.TypeCheck(g, v, prims);
  }

  lemma ProgressedTransitive(a: seq<TrackedField>, b: seq<TrackedField>, c: seq<TrackedField>, prims: Primitives)
    requires Progressed(a, b, prims) && Progressed(b, c, prims)
    ensures Progressed(a, c, prims)
  {
    forall k | 0 <= k < |a|
      ensures SameConfig(a[k], c[k]) && StatusRank(c[k].status) >= StatusRank(a[k].status)
      ensures c[k].value != a[k].value ==> Validated(c[k], prims) && StatusRank(c[k].status) == 2
      ensures a[k].status == Missing && c[k].status != Missing ==> Validated(c[k], prims)
    {
      if c[k].value == b[k].value {
        ValidationReadsConfig(b[k], c[k], c[k].value, prims);
      }
    }
  }

  lemma ProgressedReflexive(fs: seq<TrackedField>, prims: Primitives)
    ensures Progressed(fs, fs, prims)
  {
  }

  /** One extraction pair: a null value or an unknown id changes nothing; a valid value
      is stored with status COLLECTED and no error; an invalid one leaves value and
      status and records the validator's message.  No other field changes. */
  lemma ExtractEntryEffect(fs: seq<TrackedField>, id: string, v: Value, prims: Primitives)
    ensures var s := ExtractEntry(fs, id, v, prims);
      |s.fields| == |fs| && |s.updates| <= 1 &&
      (v == Null || FindField(fs, id).None? ==> s == Step(fs, [], [])) &&
      (v != Null && FindField(fs, id).Some? ==>
        var i := FindField(fs, id).value;
        var r := FieldValidation.ValidateField(fs[i], v, prims);
        (forall k :: 0 <= k < |fs| && k != i ==> s.fields[k] == fs[k]) &&
        (r.0 ==> s.fields[i].value == v && s.fields[i].status == Collected && s.fields[i].validationError == None
                 && s.updates == [Accepted(id, v)]) &&
        (!r.0 ==> s.fields[i].value == fs[i].value && s.fields[i].status == fs[i].status
                  && s.fields[i].validationError == r.1 && r.1.Some?
                  && s.updates == [Rejected(id, fs[i].status, r.1.value)]))
  {
  }

  lemma ExtractEntryProgress(fs: seq<TrackedField>, id: string, v: Value, prims: Primitives)
    ensures Progressed(fs, ExtractEntry(fs, id, v, prims).fields, prims)
  {
    if v != Null && FindField(fs, id).Some? {
      var i := FindField(fs, id).value;
      var g := fs[i].(value := v, status := Collected, validationError := None);
      ValidationReadsConfig(fs[i], g, v, prims);
    }
  }

  /** One confirmation id: only a field that is UNCONFIRMED, CONFIRMED or COLLECTED
      changes, to CONFIRMED with its value kept and its error cleared; a MISSING field
      or an unknown id is skipped. */
  lemma ConfirmEntryEffect(fs: seq<TrackedField>, fid: Value)
    ensures var s := ConfirmEntry(fs, fid);
      |s.fields| == |fs| &&
      forall k :: 0 <= k < |fs| ==>
        if fid == Str(fs[k].fieldId) && Confirmable(fs[k]) && FindField(fs, fs[k].fieldId) == Some(k) then
          s.fields[k] == fs[k].(status := Confirmed, validationError := None)
        else s.fields[k] == fs[k]
  {
  }

  lemma {:induction false} ExtractAllProgress(fs: seq<TrackedField>, entries: seq<(string, Value)>, prims: Primitives)
    ensures Progressed(fs, ExtractAll(fs, entries, prims).fields, prims)
  {
    if entries == [] {
      ProgressedReflexive(fs, prims);
    } else {
      var before := ExtractAll(fs, entries[..|entries| - 1], prims);
      var e := entries[|entries| - 1];
      ExtractAllProgress(fs, entries[..|entries| - 1], prims);
      ExtractEntryProgress(before.fields, e.0, e.1, prims);
      ProgressedTransitive(fs, before.fields, ExtractEntry(before.fields, e.0, e.1, prims).fields, prims);
    }
  }

  lemma {:induction false} ConfirmAllProgress(fs: seq<TrackedField>, targets: seq<Value>, prims: Primitives)
    ensures Progressed(fs, ConfirmAll(fs, targets).fields, prims)
  {
    if targets == [] {
      ProgressedReflexive(fs, prims);
    } else {
      var before := ConfirmAll(fs, targets[..|targets| - 1]);
      ConfirmAllProgress(fs, targets[..|targets| - 1], prims);
      var after := ConfirmEntry(before.fields, targets[|targets| - 1]).fields;
      assert Progressed(before.fields, after, prims) by {
        ConfirmEntryEffect(before.fields, targets[|targets| - 1]);
      }
      ProgressedTransitive(fs, before.fields, after, prims);
    }
  }

  /** No batch of tool calls reorders, adds, drops or reconfigures fields, moves a
      status back, confirms a MISSING field, or stores a value the validator rejects. */
  lemma {:induction false} ApplyCallsProgress(fs: seq<TrackedField>, calls: seq<ToolCall>, prims: Primitives)
    ensures Progressed(fs, ApplyCalls(fs, calls, prims).fields, prims)
  {
    if calls == [] {
      ProgressedReflexive(fs, prims);
    } else {
      var before := ApplyCalls(fs, calls[..|calls| - 1], prims);
      var c := calls[|calls| - 1];
      ApplyCallsProgress(fs, calls[..|calls| - 1], prims);
      if c.name == Extraction.ExtractToolName {
        ExtractAllProgress(before.fields, c.input, prims);
      } else if c.name == Extraction.ConfirmToolName {
        ConfirmAllProgress(before.fields, ConfirmTargets(c.input), prims);
      } else {
        ProgressedReflexive(before.fields, prims);
      }
      ProgressedTransitive(fs, before.fields, ApplyCall(before.fields, c, prims).fields, prims);
    }
  }

  /** The ids of the fields stay unique, since the ids themselves never change. */
  lemma ApplyCallsKeepIds(fs: seq<TrackedField>, calls: seq<ToolCall>, prims: Primitives)
    requires UniqueIds(fs)
    ensures Ids(ApplyCalls(fs, calls, prims).fields) == Ids(fs)
    ensures UniqueIds(ApplyCalls(fs, calls, prims).fields)
  {
    ApplyCallsProgress(fs, calls, prims);
  }

  /** Every tool-call id gets exactly one result, and nothing else does. */
  lemma {:induction false} ApplyCallsResultKeys(fs: seq<TrackedField>, calls: seq<ToolCall>, prims: Primitives)
    ensures ApplyCalls(fs, calls, prims).results.Keys == set c | c in calls :: c.id
  {
    if calls != [] {
      var init := calls[..|calls| - 1];
      ApplyCallsResultKeys(fs, init, prims);
      assert calls == init + [calls[|calls| - 1]];
    }
  }

  /** A tool that is neither the extraction nor the confirmation tool is answered
      "Unknown tool: <name>" and changes nothing. */
  lemma UnknownToolChangesNothing(fs: seq<TrackedField>, c: ToolCall, prims: Primitives)
    requires c.name != Extraction.ExtractToolName && c.name != Extraction.ConfirmToolName
    ensures ApplyCall(fs, c, prims) == CallEffect(fs, [], "Unknown tool: " + c.name)
  {
  }

  // ---------------------------------------------------------------------------
  // The phase machine: maybe_advance_phase

  /** SPOT_CHECK moves on once no active field is unconfirmed; COLLECTING (possibly
      just reached) moves on once every active required field is resolved.
      REVIEWING, COMPLETE and SUBMITTED never move here. */
  function NextPhase(phase: SessionPhase, fs: seq<TrackedField>): SessionPhase
  {
    var afterSpotCheck := if phase == SpotCheck && UnconfirmedFields(fs) == [] then Collecting else phase;
    if afterSpotCheck == Collecting && RequiredResolved(fs) then Reviewing else afterSpotCheck
  }

  method MaybeAdvancePhase(state: ConversationState)
    modifies state
    ensures state.phase == NextPhase(old(state.phase), state.fields)
    ensures state.fields == old(state.fields) && state.messages == old(state.messages)
    ensures state.submittedAt == old(state.submittedAt) && SettingsKept(state)
  {
    if state.phase == SpotCheck {
      if UnconfirmedFields(state.fields) == [] {
        state.phase := Collecting;
      }
    }
    if state.phase == Collecting {
      var resolved := AllRequiredResolved(state.fields);
      if resolved {
        state.phase := Reviewing;
      }
    }
  }

  /** The phase only moves forward, and at most from SPOT_CHECK to REVIEWING. */
  lemma NextPhaseForward(phase: SessionPhase, fs: seq<TrackedField>)
    ensures Rank(phase) <= Rank(NextPhase(phase, fs))
    ensures Rank(phase) >= Rank(Reviewing) ==> NextPhase(phase, fs) == phase
    ensures Rank(NextPhase(phase, fs)) <= Rank(Reviewing) || NextPhase(phase, fs) == phase
  {
  }

  /** Advancing twice is advancing once. */
  lemma NextPhaseIdempotent(phase: SessionPhase, fs: seq<TrackedField>)
    ensures NextPhase(NextPhase(phase, fs), fs) == NextPhase(phase, fs)
  {
  }

  /** SPOT_CHECK is left exactly when no active field is unconfirmed, and can reach
      REVIEWING in the same call. */
  lemma SpotCheckExit(fs: seq<TrackedField>)
    ensures NextPhase(SpotCheck, fs) != SpotCheck <==> UnconfirmedFields(fs) == []
    ensures NextPhase(SpotCheck, fs) == Reviewing <==> UnconfirmedFields(fs) == [] && RequiredResolved(fs)
  {
  }

  /** REVIEWING is entered only when no active required field is missing and none
      that is required is still unconfirmed. */
  lemma EnteringReviewMeansResolved(phase: SessionPhase, fs: seq<TrackedField>)
    requires phase != Reviewing && NextPhase(phase, fs) == Reviewing
    ensures MissingRequired(fs) == [] && forall f | f in UnconfirmedFields(fs) :: !f.required
  {
    RequiredResolvedIff(fs);
  }

  // ---------------------------------------------------------------------------
  // Submission: submit_session

  datatype SubmitOutcome =
    | AlreadySubmitted(fieldCount: nat)
    | Incomplete(errors: seq<string>, fieldCount: nat)
    | SubmissionFailed(errors: seq<string>, fieldCount: nat)
    | SubmittedOk(fieldCount: nat, submittedAt: int)

  function MissingMessages(fs: seq<TrackedField>): seq<string>
  {
    MapSeq(MissingRequired(fs), (f: TrackedField) => "Missing required field: " + f.labelText)
  }

  /** A callback URL is used only when it is truthy. */
  predicate HasCallback(url: Option<string>) { url.Some? && url.value != [] }

  /** What `submit_session` answers; `post` is the eApp callback, answering the text of
      the exception it raised, or None. */
  function SubmitDecision(phase: SessionPhase, fs: seq<TrackedField>, callbackUrl: Option<string>,
                          post: (string, map<string, Value>) -> Option<string>, now: int): SubmitOutcome
  {
    var data := ApplicationData(fs);
    if phase == Submitted then AlreadySubmitted(|data|)
    else if phase != Complete && phase != Reviewing && MissingRequired(fs) != [] then
      Incomplete(MissingMessages(fs), |data|)
    else if HasCallback(callbackUrl) && post(callbackUrl.value, data).Some? then
      SubmissionFailed([post(callbackUrl.value, data).value], |data|)
    else SubmittedOk(|data|, now)
  }

  /** Submission succeeds exactly when the session is not yet submitted, nothing
      required is missing (checked only before REVIEWING), and the callback, if any,
      did not fail; every answer counts the application data. */
  lemma SubmitSucceedsIff(phase: SessionPhase, fs: seq<TrackedField>, callbackUrl: Option<string>,
                          post: (string, map<string, Value>) -> Option<string>, now: int)
    ensures var o := SubmitDecision(phase, fs, callbackUrl, post, now);
      o.fieldCount == |ApplicationData(fs)| &&
      (o.SubmittedOk? <==>
        phase != Submitted &&
        (phase == Complete || phase == Reviewing || MissingRequired(fs) == []) &&
        !(HasCallback(callbackUrl) && post(callbackUrl.value, ApplicationData(fs)).Some?)) &&
      (o.AlreadySubmitted? <==> phase == Submitted) &&
      (o.Incomplete? ==> |o.errors| == |MissingRequired(fs)| && o.errors != [])
  {
  }

  /** Only missing fields block submission: outside the submitted phase, an active
      required field still UNCONFIRMED leaves the required fields unresolved, yet the
      session is submitted when nothing required is missing and the callback, if any,
      accepts the data. */
  lemma SubmitIgnoresUnconfirmed(phase: SessionPhase, fs: seq<TrackedField>, f: TrackedField,
                                 callbackUrl: Option<string>,
                                 post: (string, map<string, Value>) -> Option<string>, now: int)
    requires phase != Submitted && f in ActiveFields(fs) && f.required && f.status == Unconfirmed
    requires MissingRequired(fs) == []
    requires !(HasCallback(callbackUrl) && post(callbackUrl.value, ApplicationData(fs)).Some?)
    ensures !RequiredResolved(fs)
    ensures SubmitDecision(phase, fs, callbackUrl, post, now) == SubmittedOk(|ApplicationData(fs)|, now)
  {
    assert Unresolved(f);
  }

  // ---------------------------------------------------------------------------
  // One conversational turn: handle_message

  datatype LlmMessage = LlmMessage(role: Role, content: string)

  /** A model response: its text and the tool calls it asks for. */
  datatype LlmResponse = LlmResponse(text: string, toolCalls: seq<ToolCall>)

  /** The services a turn talks to.  `chat` is the first model call (history, tools,
      whether a tool call is forced); `followUp` the text of the second call, given the
      first response and the tool results; `placeCall` the outbound phone call (phone
      number, missing fields, client name, advisor name), answering the created call
      or the text of the exception it raised. */
  datatype Services = Services(
    chat: (seq<LlmMessage>, seq<Extraction.Tool>, bool) -> LlmResponse,
    followUp: (seq<LlmMessage>, LlmResponse, seq<PrefillAgent.ToolResult>) -> string,
    placeCall: (Value, Value, Value, string) -> Result<seq<(string, Value)>>,
    dataSources: PrefillAgent.DataSources)

  /** ADVISOR_TOOL_NAMES: the tools answered by the data sources or the phone service. */
  const AdvisorCallNames: set<string> := {
    "lookup_crm_client", "lookup_family_members", "lookup_crm_notes",
    "lookup_prior_policies", "lookup_annual_statements", "extract_document_fields",
    "get_advisor_preferences", "get_carrier_suitability", "call_client"}

  /** TOOL_SOURCE_LABELS */
  function SourceLabel(name: string): Option<string>
  {
    if name == "lookup_crm_client" || name == "lookup_family_members" then Some("Redtail CRM")
    else if name == "lookup_crm_notes" then Some("CRM Notes")
    else if name == "lookup_prior_policies" then Some("Prior Policies")
    else if name == "lookup_annual_statements" || name == "extract_document_fields" then Some("Document Store")
    else if name == "get_advisor_preferences" then Some("Advisor Preferences")
    else if name == "get_carrier_suitability" then Some("Suitability Check")
    else if name == "call_client" then Some("Client Call")
    else None
  }

  predicate IsAdvisorCall(c: ToolCall) { c.name in AdvisorCallNames }

  predicate IsFieldCall(c: ToolCall) { c.name !in AdvisorCallNames }

  /** `_build_llm_messages`: the history as role/content pairs, behind a synthetic
      user message when it opens with the assistant. */
  function BuildLlmMessages(ms: seq<Message>): (r: seq<LlmMessage>)
  {
    var msgs := MapSeq(ms, (m: Message) => LlmMessage(m.role, m.content));
    if msgs != [] && msgs[0].role == Assistant then [LlmMessage(User, "Hello, let's get started.")] + msgs else msgs
  }

  /** The model always sees a history that opens with the user, and the whole
      history after at most one synthetic message. */
  lemma LlmMessagesOpenWithUser(ms: seq<Message>)
    ensures var r := BuildLlmMessages(ms);
      (r == [] <==> ms == []) && (r != [] ==> r[0].role == User) &&
      |r| - |ms| in {0, 1} &&
      forall k :: 0 <= k < |ms| ==> r[|r| - |ms| + k] == LlmMessage(ms[k].role, ms[k].content)
  {
  }

  /** The result text of an advisor tool: the phone call for `call_client`, the
      pre-fill dispatcher for the others; a raised exception becomes an error object. */
  function AdvisorResult(c: ToolCall, advisorName: Option<string>, svc: Services, prims: Primitives): string
  {
    if c.name == "call_client" then
      var listed := GetOr(c.input, "missing_fields", Arr([]));
      var missing := Arr(if listed.Arr? then MapSeq(listed.items, (x: Value) => Obj([("id", x), ("label", x)])) else []);
      var advisor := if advisorName.Some? then advisorName.value else "";
      match svc.placeCall(GetOr(c.input, "phone_number", Str("")), missing, GetOr(c.input, "client_name", Str("")), advisor)
      case Ok(call) =>
        var message := "Call initiated to " + PyStr(GetOr(c.input, "client_name", Str("client")), prims)
                       + ". The AI agent will collect the missing information.";
        prims.dumpJson(Obj([("status", Str("call_initiated")), ("call_id", GetOr(call, "call_id", Str(""))),
                            ("message", Str(message))]))
      case Failed(e) => prims.dumpJson(PrefillAgent.ErrorObject(e))
    else prims.dumpJson(PrefillAgent.ExecuteTool(c.name, c.input, svc.dataSources))
  }

  /** The results of the advisor calls, in order, over the field tools' results. */
  function AdvisorResults(results: map<string, string>, calls: seq<ToolCall>, advisorName: Option<string>,
                          svc: Services, prims: Primitives): map<string, string>
  {
    if calls == [] then results
    else
      var c := calls[|calls| - 1];
      AdvisorResults(results, calls[..|calls| - 1], advisorName, svc, prims)[c.id := AdvisorResult(c, advisorName, svc, prims)]
  }

  /** The tool-result blocks of the follow-up call, "OK" for an id without a result. */
  function ResultBlocks(calls: seq<ToolCall>, results: map<string, string>): seq<PrefillAgent.ToolResult>
  {
    MapSeq(calls, (c: ToolCall) => PrefillAgent.ToolResult(c.id, if c.id in results then results[c.id] else "OK"))
  }

  /** What the frontend is told about one tool call. */
  datatype ToolCallInfo = ToolCallInfo(name: string, sourceLabel: Option<string>, resultData: Option<seq<(string, Value)>>)

  function InfoOf(c: ToolCall, results: map<string, string>, prims: Primitives): ToolCallInfo
  {
    var raw := if c.id in results then results[c.id] else "";
    var data :=
      if raw != "" && IsAdvisorCall(c) then
        match prims.parseJson(raw)
        case Some(Obj(ms)) => if "error" in Keys(ms) then None else Some(ms)
        case _ => None
      else None;
    ToolCallInfo(c.name, SourceLabel(c.name), data)
  }

  /** `{uf["field_id"]: uf.get("value") for uf in updated_fields}` */
  function ExtractedMap(us: seq<FieldUpdate>): map<string, Value>
  {
    if us == [] then map[]
    else ExtractedMap(us[..|us| - 1])[us[|us| - 1].fieldId := UpdateValue(us[|us| - 1])]
  }

  /** `... or None` */
  function ExtractedOrNone(us: seq<FieldUpdate>): Option<map<string, Value>>
  {
    var m := ExtractedMap(us);
    if m == map[] then None else Some(m)
  }

  /** The reply of a turn: its text, `updated_fields` and the tool-call information. */
  datatype TurnReply = TurnReply(text: string, updates: seq<FieldUpdate>, toolCalls: seq<ToolCallInfo>)

  const CompleteReply := TurnReply("This session is already complete.", [], [])

  /** A turn in a non-terminal phase, after the user message joined `history`: the
      reply, the new fields and the new phase. */
  datatype TurnEffect = TurnEffect(reply: TurnReply, fields: seq<TrackedField>, phase: SessionPhase)

  function Turn(phase: SessionPhase, fs: seq<TrackedField>, history: seq<Message>, advisorName: Option<string>,
                svc: Services, prims: Primitives): TurnEffect
  {
    var llmMessages := BuildLlmMessages(history);
    var tools := Extraction.ToolsForPhase(phase, advisorName, fs);
    var response := svc.chat(llmMessages, tools, tools != [] && !Extraction.AdvisorMode(advisorName));
    var calls := response.toolCalls;
    var processed := ApplyCalls(fs, Filter(calls, IsFieldCall), prims);
    var results := AdvisorResults(processed.results, Filter(calls, IsAdvisorCall), advisorName, svc, prims);
    var text := if calls == [] then response.text
                else svc.followUp(llmMessages, response, ResultBlocks(calls, results));
    var info := MapSeq(calls, (c: ToolCall) => InfoOf(c, results, prims));
    TurnEffect(TurnReply(text, processed.updates, info), processed.fields, NextPhase(phase, processed.fields))
  }

  /** A turn changes fields only as the field tools may, and moves the phase forward
      only. */
  lemma TurnProgress(phase: SessionPhase, fs: seq<TrackedField>, history: seq<Message>, advisorName: Option<string>,
                     svc: Services, prims: Primitives)
    ensures var t := Turn(phase, fs, history, advisorName, svc, prims);
      Progressed(fs, t.fields, prims) && Rank(phase) <= Rank(t.phase)
  {
    var tools := Extraction.ToolsForPhase(phase, advisorName, fs);
    var response := svc.chat(BuildLlmMessages(history), tools, tools != [] && !Extraction.AdvisorMode(advisorName));
    ApplyCallsProgress(fs, Filter(response.toolCalls, IsFieldCall), prims);
  }

  /** A batch made only of advisor tools leaves the fields as they were. */
  lemma AdvisorCallsKeepFields(fs: seq<TrackedField>, calls: seq<ToolCall>, prims: Primitives)
    requires forall c | c in calls :: IsAdvisorCall(c)
    ensures ApplyCalls(fs, Filter(calls, IsFieldCall), prims).fields == fs
  {
    FilterNone(calls, IsFieldCall);
  }

  /** `select_product` is offered to an advisor but is not one of the advisor tools
      the turn executes, so the field processor answers it as an unknown tool. */
  lemma SelectProductIsUnknownTool(fs: seq<TrackedField>, c: ToolCall, prims: Primitives)
    requires c.name == "select_product"
    ensures "select_product" in Extraction.AdvisorToolNames
    ensures IsFieldCall(c)
    ensures ApplyCall(fs, c, prims) == CallEffect(fs, [], "Unknown tool: select_product")
  {
    assert Extraction.AdvisorToolNames[8] == "select_product";
  }

  // ---------------------------------------------------------------------------
  // The session store

  lemma TrackAppendOne(defs: seq<FieldDefinition>, d: FieldDefinition, known: seq<(string, Value)>)
    ensures Track(defs + [d], known) == PutField(Track(defs, known), TrackField(d, known))
  {
    assert (defs + [d])[..|defs|] == defs;
  }

  lemma TrackPrefixStep(defs: seq<FieldDefinition>, more: seq<FieldDefinition>, j: nat, known: seq<(string, Value)>)
    requires j < |more|
    ensures Track(defs + more[..j + 1], known) == PutField(Track(defs + more[..j], known), TrackField(more[j], known))
  {
    assert defs + more[..j + 1] == (defs + more[..j]) + [more[j]];
    TrackAppendOne(defs + more[..j], more[j], known);
  }

  lemma DefinitionsAppendOne(qs: seq<StepDefinition>, i: nat)
    requires i < |qs|
    ensures Definitions(qs[..i + 1]) == Definitions(qs[..i]) + qs[i].fields
  {
    assert qs[..i + 1][..i] == qs[..i];
  }

  lemma StepRecordsAppendOne(qs: seq<StepDefinition>, i: nat)
    requires i < |qs|
    ensures StepRecords(qs[..i + 1]) == StepRecords(qs[..i]) + [StepRecordOf(qs[i])]
  {
    assert qs[..i + 1][..i] == qs[..i];
  }

  /** The inner loop of `create_session`: one step's field definitions, in order. */
  method TrackInto(fields: seq<TrackedField>, ghost defs: seq<FieldDefinition>,
                   more: seq<FieldDefinition>, known: seq<(string, Value)>)
    returns (r: seq<TrackedField>)
    requires fields == Track(defs, known)
    ensures r == Track(defs + more, known)
  {
    r := fields;
    var j := 0;
    ghost var done := defs;
    assert defs + more[..0] == defs;
    while j < |more|
      invariant 0 <= j <= |more|
      invariant done == defs + more[..j]
      invariant r == Track(done, known)
    {
      TrackPrefixStep(defs, more, j, known);
      var f := TrackField(more[j], known);
      r := PutField(r, f);
      j := j + 1;
      done := defs + more[..j];
    }
    assert more[..j] == more;
  }

  /** The loop of `create_session` over the steps and their field definitions. */
  method BuildFields(questions: seq<StepDefinition>, known: seq<(string, Value)>)
    returns (fields: seq<TrackedField>, steps: seq<StepRecord>)
    ensures fields == Track(Definitions(questions), known)
    ensures steps == StepRecords(questions)
  {
    fields := [];
    steps := [];
    var i := 0;
    while i < |questions|
      invariant 0 <= i <= |questions|
      invariant fields == Track(Definitions(questions[..i]), known)
      invariant steps == StepRecords(questions[..i])
    {
      var step := questions[i];
      DefinitionsAppendOne(questions, i);
      StepRecordsAppendOne(questions, i);
      steps := steps + [StepRecordOf(step)];
      fields := TrackInto(fields, Definitions(questions[..i]), step.fields, known);
      i := i + 1;
    }
    assert questions[..i] == questions;
  }

  /** The advisor-tool loop of `handle_message`, over the field tools' results. */
  method AdvisorCallsInto(results: map<string, string>, calls: seq<ToolCall>, advisorName: Option<string>,
                          svc: Services, prims: Primitives)
    returns (r: map<string, string>)
    ensures r == AdvisorResults(results, calls, advisorName, svc, prims)
  {
    r := results;
    var i := 0;
    while i < |calls|
      invariant 0 <= i <= |calls|
      invariant r == AdvisorResults(results, calls[..i], advisorName, svc, prims)
    {
      var c := calls[i];
      assert calls[..i + 1][..i] == calls[..i];
      r := r[c.id := AdvisorResult(c, advisorName, svc, prims)];
      i := i + 1;
    }
    assert calls[..i] == calls;
  }

  /** The body of `handle_message` after the user message joined the history: the
      model call, the tools, the follow-up call and the phase transition. */
  method RunTurn(state: ConversationState, svc: Services, prims: Primitives) returns (reply: TurnReply)
    modifies state
    ensures var t := Turn(old(state.phase), old(state.fields), old(state.messages), old(state.advisorName), svc, prims);
      reply == t.reply && state.fields == t.fields && state.phase == t.phase
    ensures state.messages == old(state.messages) && state.submittedAt == old(state.submittedAt)
    ensures SettingsKept(state)
  {
    ghost var fs := state.fields;
    var tools := Extraction.BuildToolsForPhase(state);
    var llmMessages := BuildLlmMessages(state.messages);
    var force := if tools != [] then !Extraction.AdvisorMode(state.advisorName) else false;
    var response := svc.chat(llmMessages, tools, force);
    var calls := response.toolCalls;
    var fieldCalls := Filter(calls, IsFieldCall);
    var results: map<string, string> := map[];
    var updated: seq<FieldUpdate> := [];
    var text := response.text;
    var info: seq<ToolCallInfo> := [];
    if calls != [] {
      if fieldCalls != [] {
        results, updated := ProcessToolCalls(fieldCalls, state, prims);
      }
      results := AdvisorCallsInto(results, Filter(calls, IsAdvisorCall), state.advisorName, svc, prims);
      text := svc.followUp(llmMessages, response, ResultBlocks(calls, results));
      info := MapSeq(calls, (c: ToolCall) => InfoOf(c, results, prims));
    }
    MaybeAdvancePhase(state);
    reply := TurnReply(text, updated, info);
  }

  class SessionStore {
    /** `_sessions` */
    var sessions: map<string, ConversationState>

    constructor ()
      ensures sessions == map[]
    {
      sessions := map[];
    }

    /** Stores a new session whose fields, steps, phase and greeting are computed. */
    method Open(sessionId: string, phase: SessionPhase, fields: seq<TrackedField>, steps: seq<StepRecord>,
                callbackUrl: Option<string>, model: Option<string>, advisorName: Option<string>,
                clientContext: seq<(string, Value)>, now: int, greeting: string)
      returns (state: ConversationState)
      modifies this
      ensures fresh(state)
      ensures sessions == old(sessions)[sessionId := state]
      ensures state.sessionId == sessionId && state.createdAt == now && state.submittedAt == None
      ensures state.fields == fields && state.steps == steps && state.phase == phase
      ensures state.messages == [Message(Assistant, greeting, now, None)]
      ensures state.callbackUrl == callbackUrl && state.modelOverride == model
      ensures state.advisorName == advisorName && state.clientContext == clientContext
    {
      state := new ConversationState(sessionId, phase, fields, steps, callbackUrl, model, advisorName,
                                     clientContext, now);
      state.messages := [Message(Assistant, greeting, now, None)];
      sessions := sessions[sessionId := state];
    }

    /** `create_session`; `sessionId` is the fresh identifier, `now` the clock and
        `greeter` the model's greeting for an instruction. */
    method CreateSession(sessionId: string, questions: seq<StepDefinition>, known: seq<(string, Value)>,
                         callbackUrl: Option<string>, model: Option<string>, advisorName: Option<string>,
                         clientContext: seq<(string, Value)>, now: int, greeter: string -> string, prims: Primitives)
      returns (state: ConversationState, greeting: string)
      modifies this
      ensures fresh(state)
      ensures sessions == old(sessions)[sessionId := state]
      ensures state.sessionId == sessionId && state.createdAt == now && state.submittedAt == None
      ensures state.fields == Track(Definitions(questions), known)
      ensures state.steps == StepRecords(questions)
      ensures state.phase == InitialPhase(state.fields)
      ensures greeting == Greeting(state.phase, state.fields, advisorName, clientContext, greeter, prims)
      ensures state.messages == [Message(Assistant, greeting, now, None)]
      ensures state.callbackUrl == callbackUrl && state.modelOverride == model
      ensures state.advisorName == advisorName && state.clientContext == clientContext
    {
      var fields, steps := BuildFields(questions, known);
      var phase := if exists f | f in fields :: f.status == Unconfirmed then SpotCheck else Collecting;
      greeting := Greeting(phase, fields, advisorName, clientContext, greeter, prims);
      state := Open(sessionId, phase, fields, steps, callbackUrl, model, advisorName, clientContext, now, greeting);
    }

    /** `handle_message`; None when the session does not exist (ValueError). */
    method HandleMessage(sessionId: string, userMessage: string, svc: Services, prims: Primitives, now: int)
      returns (reply: Option<TurnReply>)
      modifies if sessionId in sessions then {sessions[sessionId]} else {}
      ensures sessionId !in sessions <==> reply.None?
      ensures sessionId in sessions ==> SettingsKept(sessions[sessionId])
      ensures sessionId in sessions ==>
        var s := sessions[sessionId];
        if IsTerminal(old(s.phase)) then
          reply == Some(CompleteReply) && unchanged(s)
        else
          var history := old(s.messages) + [Message(User, userMessage, now, None)];
          var t := Turn(old(s.phase), old(s.fields), history, s.advisorName, svc, prims);
          reply == Some(t.reply) && s.fields == t.fields && s.phase == t.phase
          && s.messages == history + [Message(Assistant, t.reply.text, now, ExtractedOrNone(t.reply.updates))]
      ensures sessionId in sessions ==> sessions[sessionId].submittedAt == old(sessions[sessionId].submittedAt)
    {
      if sessionId !in sessions {
        return None;
      }
      var state := sessions[sessionId];
      if state.phase == Complete || state.phase == Submitted {
        return Some(CompleteReply);
      }
      state.messages := state.messages + [Message(User, userMessage, now, None)];
      var r := RunTurn(state, svc, prims);
      state.messages := state.messages + [Message(Assistant, r.text, now, ExtractedOrNone(r.updates))];
      reply := Some(r);
    }

    /** `submit_session`; None when the session does not exist (ValueError).  `post` is
        the eApp callback and `now` the clock. */
    method SubmitSession(sessionId: string, post: (string, map<string, Value>) -> Option<string>, now: int)
      returns (outcome: Option<SubmitOutcome>)
      modifies if sessionId in sessions then {sessions[sessionId]} else {}
      ensures sessionId !in sessions <==> outcome.None?
      ensures sessionId in sessions ==> SettingsKept(sessions[sessionId])
      ensures sessionId in sessions ==>
        var s := sessions[sessionId];
        outcome == Some(SubmitDecision(old(s.phase), s.fields, s.callbackUrl, post, now)) &&
        s.fields == old(s.fields) && s.messages == old(s.messages) &&
        (if outcome.value.SubmittedOk? then s.phase == Submitted && s.submittedAt == Some(now)
         else s.phase == old(s.phase) && s.submittedAt == old(s.submittedAt))
    {
      if sessionId !in sessions {
        return None;
      }
      var state := sessions[sessionId];
      var data := ApplicationData(state.fields);
      if state.phase == Submitted {
        return Some(AlreadySubmitted(|data|));
      }
      if state.phase != Complete && state.phase != Reviewing {
        var missing := MissingRequired(state.fields);
        if missing != [] {
          return Some(Incomplete(MissingMessages(state.fields), |data|));
        }
      }
      if HasCallback(state.callbackUrl) {
        var error := post(state.callbackUrl.value, data);
        if error.Some? {
          return Some(SubmissionFailed([error.value], |data|));
        }
      }
      state.phase := Submitted;
      state.submittedAt := Some(now);
      return Some(SubmittedOk(|data|, now));
    }
  }
}
