/** The eApp schema adapter (ai-service/app/services/schema_adapter.py): an external
    definition made of pages, questions and visibility rules becomes the steps, field
    definitions and conditions a session is created from.  Dicts are key/value
    sequences in insertion order; where Python raises, the result is Failed with the
    exception's name. */
module SchemaAdapter {
  import opened Values
  import Conversation
  import FieldValidation

  /** `_TYPE_MAP` */
  const TypeMap: map<string, string> := map[
    "short_text" := "text", "long_text" := "textarea", "number" := "number",
    "currency" := "currency", "date" := "date", "boolean" := "checkbox",
    "select" := "select", "multi_select" := "select", "radio" := "select",
    "phone" := "phone", "email" := "email", "ssn" := "ssn", "signature" := "text",
    "initials" := "text", "file_upload" := "text", "repeatable_group" := "text",
    "allocation_table" := "text"]

  /** `_TYPE_MAP.get(qtype, "text")`; None where the question type is a list or a
      dict, which cannot be hashed. */
  function FieldTypeOf(qtype: Value): Option<string>
  {
    if qtype.Arr? || qtype.Obj? then None
    else if qtype.Str? && qtype.s in TypeMap then Some(TypeMap[qtype.s])
    else Some("text")
  }

  /** Every internal type the adapter produces is one the field validator checks;
      radio and multi-select questions become selects, and an unknown type becomes
      text. */
  lemma FieldTypesAreValidated(qtype: Value)
    ensures FieldTypeOf(qtype).Some? <==> !qtype.Arr? && !qtype.Obj?
    ensures FieldTypeOf(qtype).Some? ==> FieldTypeOf(qtype).value in FieldValidation.ValidatedTypes
    ensures qtype == Str("radio") || qtype == Str("multi_select") ==> FieldTypeOf(qtype) == Some("select")
    ensures qtype.Str? && qtype.s !in TypeMap ==> FieldTypeOf(qtype) == Some("text")
  {
    if qtype.Str? && qtype.s in TypeMap {
      assert TypeMap.Values <= FieldValidation.ValidatedTypes;
      assert TypeMap[qtype.s] in TypeMap.Values;
    }
  }

  /** The strings among `vs`, when all of them are strings (`str.join` raises
      TypeError on anything else). */
  function Texts(vs: seq<Value>): (r: Option<seq<string>>)
    ensures r.Some? <==> forall i :: 0 <= i < |vs| ==> vs[i].Str?
    ensures r.Some? ==> |r.value| == |vs| && forall i :: 0 <= i < |vs| ==> vs[i] == Str(r.value[i])
  {
    if vs == [] then Some([])
    else if !vs[0].Str? then None
    else match Texts(vs[1..])
      case None => None
      case Some(rest) => Some([vs[0].s] + rest)
  }

  /** `[x for x in xs if x]` over adapted items that may be dropped. */
  function Present<T>(os: seq<Option<T>>): seq<T>
  {
    if os == [] then [] else (if os[0].Some? then [os[0].value] else []) + Present(os[1..])
  }

  lemma {:induction false} PresentAppend<T>(os: seq<Option<T>>, o: Option<T>)
    ensures Present(os + [o]) == Present(os) + (if o.Some? then [o.value] else [])
  {
    if os == [] {
      assert os + [o] == [o];
    } else {
      var head := if os[0].Some? then [os[0].value] else [];
      var last := if o.Some? then [o.value] else [];
      assert (os + [o])[1..] == os[1..] + [o];
      PresentAppend(os[1..], o);
      assert Present(os + [o]) == head + (Present(os[1..]) + last);
    }
  }

  /** A loop that appends every kept item and stops at the first exception. */
  function Collect<T>(rs: seq<Result<Option<T>>>): Result<seq<T>>
  {
    if rs == [] then Ok([])
    else
      match Collect(rs[..|rs| - 1])
      case Failed(e) => Failed(e)
      case Ok(xs) =>
        match rs[|rs| - 1]
        case Failed(e) => Failed(e)
        case Ok(o) => Ok(if o.Some? then xs + [o.value] else xs)
  }

  /** Without an exception, the loop keeps exactly the present items, in order. */
  lemma {:induction false} CollectOk<T>(rs: seq<Result<Option<T>>>, os: seq<Option<T>>)
    requires |rs| == |os| && forall i :: 0 <= i < |rs| ==> rs[i] == Ok(os[i])
    ensures Collect(rs) == Ok(Present(os))
  {
    if rs != [] {
      var n := |rs| - 1;
      assert forall i :: 0 <= i < n ==> rs[..n][i] == Ok(os[..n][i]);
      CollectOk(rs[..n], os[..n]);
      PresentAppend(os[..n], os[n]);
      assert os[..n] + [os[n]] == os;
      assert rs[|rs| - 1] == Ok(os[n]);
      assert Collect(rs[..|rs| - 1]) == Ok(Present(os[..n]));
      var xs := Present(os[..n]);
      assert Collect(rs) == Ok(if os[n].Some? then xs + [os[n].value] else xs);
      assert Present(os) == Present(os[..n] + [os[n]]);
      if os[n].None? {
        assert xs + [] == xs;
      }
    } else {
      assert os == [];
    }
  }

  /** The first exception is the one the loop raises. */
  lemma {:induction false} CollectFails<T>(rs: seq<Result<Option<T>>>, k: nat)
    requires k < |rs| && rs[k].Failed? && forall i :: 0 <= i < k ==> rs[i].Ok?
    ensures Collect(rs) == Failed(rs[k].error)
  {
    var n := |rs| - 1;
    if k == n {
      CollectPrefixOk(rs[..n]);
    } else {
      assert rs[..n][k] == rs[k];
      CollectFails(rs[..n], k);
    }
  }

  lemma {:induction false} CollectPrefixOk<T>(rs: seq<Result<Option<T>>>)
    requires forall i :: 0 <= i < |rs| ==> rs[i].Ok?
    ensures Collect(rs).Ok?
  {
    if rs != [] {
      CollectPrefixOk(rs[..|rs| - 1]);
    }
  }

  /** Once the loop has raised, later items do not matter. */
  lemma {:induction false} CollectStopsAtFailure<T>(rs: seq<Result<Option<T>>>, i: nat)
    requires i <= |rs| && Collect(rs[..i]).Failed?
    ensures Collect(rs) == Collect(rs[..i])
  {
    if i < |rs| {
      var n := |rs| - 1;
      assert rs[..n][..i] == rs[..i];
      CollectStopsAtFailure(rs[..n], i);
    } else {
      assert rs[..i] == rs;
    }
  }

  // ---------------------------------------------------------------------------
  // _adapt_validation

  /** The flat key a rule of this type writes its value under. */
  function TargetKey(rtype: Value): Option<string>
  {
    if rtype == Str("max_length") then Some("max_length")
    else if rtype == Str("min_length") then Some("min_length")
    else if rtype == Str("pattern") then Some("pattern")
    else if rtype == Str("min") then Some("min_value")
    else if rtype == Str("max") then Some("max_value")
    else if rtype == Str("min_date") then Some("min_date")
    else if rtype == Str("max_date") then Some("max_date")
    else if rtype == Str("equals") then Some("equals")
    else if rtype == Str("equals_today") then Some("equals_today")
    else None
  }

  /** Rule types whose description becomes the field's `custom_message`. */
  predicate CarriesMessage(rtype: Value)
  {
    rtype in {Str("pattern"), Str("min_date"), Str("max_date"), Str("equals"), Str("equals_today")}
  }

  function RuleType(rule: seq<(string, Value)>): Value { GetOr(rule, "type", Str("")) }

  /** Whether a rule writes `key` of the flat validation dict. */
  predicate Writes(rule: seq<(string, Value)>, key: string)
  {
    TargetKey(RuleType(rule)) == Some(key) ||
    (key == "custom_message" && CarriesMessage(RuleType(rule)) && Truthy(GetOr(rule, "description", Null)))
  }

  /** What a rule writes under `key`: its description for the message, `True` for
      `equals_today`, its value otherwise. */
  function WrittenValue(rule: seq<(string, Value)>, key: string): Value
  {
    if key == "custom_message" then GetOr(rule, "description", Null)
    else if RuleType(rule) == Str("equals_today") then Bool(true)
    else GetOr(rule, "value", Null)
  }

  /** `result["custom_message"] = desc` when the description is truthy. */
  function WithMessage(result: seq<(string, Value)>, desc: Value): seq<(string, Value)>
  {
    if Truthy(desc) then Put(result, "custom_message", desc) else result
  }

  /** One iteration of `_adapt_validation`'s loop. */
  function AddRule(result: seq<(string, Value)>, rule: seq<(string, Value)>): seq<(string, Value)>
  {
    var rtype := RuleType(rule);
    var value := GetOr(rule, "value", Null);
    var desc := GetOr(rule, "description", Null);
    if rtype == Str("required") then result
    else if rtype == Str("max_length") then Put(result, "max_length", value)
    else if rtype == Str("min_length") then Put(result, "min_length", value)
    else if rtype == Str("pattern") then WithMessage(Put(result, "pattern", value), desc)
    else if rtype == Str("min") then Put(result, "min_value", value)
    else if rtype == Str("max") then Put(result, "max_value", value)
    else if rtype == Str("min_date") then WithMessage(Put(result, "min_date", value), desc)
    else if rtype == Str("max_date") then WithMessage(Put(result, "max_date", value), desc)
    else if rtype == Str("equals") then WithMessage(Put(result, "equals", value), desc)
    else if rtype == Str("equals_today") then WithMessage(Put(result, "equals_today", Bool(true)), desc)
    else result
  }

  /** The flat validation dict the rules build, in order. */
  function RulesFold(rules: seq<seq<(string, Value)>>): seq<(string, Value)>
  {
    if rules == [] then [] else AddRule(RulesFold(rules[..|rules| - 1]), rules[|rules| - 1])
  }

  /** One rule sets exactly the keys it writes and keeps every other key. */
  lemma AddRuleGet(result: seq<(string, Value)>, rule: seq<(string, Value)>, key: string)
    ensures Get(AddRule(result, rule), key) ==
      if Writes(rule, key) then Some(WrittenValue(rule, key)) else Get(result, key)
  {
    var rtype := RuleType(rule);
    var desc := GetOr(rule, "description", Null);
    var value := GetOr(rule, "value", Null);
    if TargetKey(rtype).Some? {
      var k := TargetKey(rtype).value;
      var v := if rtype == Str("equals_today") then Bool(true) else value;
      GetPut(result, k, v, key);
      if Truthy(desc) && CarriesMessage(rtype) {
        GetPut(Put(result, k, v), "custom_message", desc, key);
      }
    }
  }

  /** The last rule that writes a key decides its value ("required" and the rule types
      the adapter skips write nothing). */
  lemma {:induction false} LastRuleWins(rules: seq<seq<(string, Value)>>, key: string, i: nat)
    requires i < |rules| && Writes(rules[i], key)
    requires forall j :: i < j < |rules| ==> !Writes(rules[j], key)
    ensures Get(RulesFold(rules), key) == Some(WrittenValue(rules[i], key))
  {
    var n := |rules| - 1;
    AddRuleGet(RulesFold(rules[..n]), rules[n], key);
    if i < n {
      assert rules[..n][i] == rules[i];
      LastRuleWins(rules[..n], key, i);
    }
  }

  /** A key no rule writes is absent. */
  lemma {:induction false} UnwrittenKeyAbsent(rules: seq<seq<(string, Value)>>, key: string)
    requires forall j :: 0 <= j < |rules| ==> !Writes(rules[j], key)
    ensures Get(RulesFold(rules), key) == None
  {
    if rules != [] {
      var n := |rules| - 1;
      AddRuleGet(RulesFold(rules[..n]), rules[n], key);
      UnwrittenKeyAbsent(rules[..n], key);
    }
  }

  /** `required` rules are ignored, and `min`/`max` rules land on `min_value`/`max_value`. */
  lemma RuleKinds(rule: seq<(string, Value)>, key: string)
    ensures RuleType(rule) == Str("required") ==> !Writes(rule, key)
    ensures RuleType(rule) == Str("min") ==> (Writes(rule, key) <==> key == "min_value")
    ensures RuleType(rule) == Str("max") ==> (Writes(rule, key) <==> key == "max_value")
    ensures Writes(rule, "custom_message") <==>
      CarriesMessage(RuleType(rule)) && Truthy(GetOr(rule, "description", Null))
  {
  }

  /** `_adapt_validation`: fills the flat dict rule by rule. */
  method AdaptValidation(rules: seq<seq<(string, Value)>>) returns (result: seq<(string, Value)>)
    ensures result == RulesFold(rules)
  {
    result := [];
    var i := 0;
    while i < |rules|
      invariant 0 <= i <= |rules|
      invariant result == RulesFold(rules[..i])
    {
      assert rules[..i + 1][..i] == rules[..i];
      var rule := rules[i];
      var rtype := GetOr(rule, "type", Str(""));
      var value := GetOr(rule, "value", Null);
      var desc := GetOr(rule, "description", Null);
      if rtype == Str("required") {
      } else if rtype == Str("max_length") {
        result := Put(result, "max_length", value);
      } else if rtype == Str("min_length") {
        result := Put(result, "min_length", value);
      } else if rtype == Str("pattern") {
        result := Put(result, "pattern", value);
        if Truthy(desc) { result := Put(result, "custom_message", desc); }
      } else if rtype == Str("min") {
        result := Put(result, "min_value", value);
      } else if rtype == Str("max") {
        result := Put(result, "max_value", value);
      } else if rtype == Str("min_date") {
        result := Put(result, "min_date", value);
        if Truthy(desc) { result := Put(result, "custom_message", desc); }
      } else if rtype == Str("max_date") {
        result := Put(result, "max_date", value);
        if Truthy(desc) { result := Put(result, "custom_message", desc); }
      } else if rtype == Str("equals") {
        result := Put(result, "equals", value);
        if Truthy(desc) { result := Put(result, "custom_message", desc); }
      } else if rtype == Str("equals_today") {
        result := Put(result, "equals_today", Bool(true));
        if Truthy(desc) { result := Put(result, "custom_message", desc); }
      }
      i := i + 1;
    }
    assert rules[..i] == rules;
  }

  /** `_adapt_validation(q["validation"])`, with the exceptions of iterating the value. */
  function AdaptedValidation(rules: Value): Result<seq<(string, Value)>>
  {
    match Elements(rules)
    case None => Failed("TypeError")
    case Some(items) =>
      match AllDicts(items)
      case None => Failed("AttributeError")
      case Some(dicts) => Ok(RulesFold(dicts))
  }

  // ---------------------------------------------------------------------------
  // _adapt_visibility and _leaf_to_condition

  /** `op_map.get(op, op)` */
  function MappedOp(op: Value): Value
  {
    if op == Str("eq") then Str("equals")
    else if op == Str("neq") then Str("not_equals")
    else if op == Str("contains") then Str("in")
    else op
  }

  /** `_leaf_to_condition` as written: the leaf in the internal format, its operator
      mapped by `op_map`; TypeError for an operator that cannot be hashed. */
  function LeafToCondition(leaf: seq<(string, Value)>): (r: Result<Value>)
    ensures r.Failed? <==> GetOr(leaf, "op", Str("eq")).Arr? || GetOr(leaf, "op", Str("eq")).Obj?
    ensures r.Failed? ==> r.error == "TypeError"
    ensures r.Ok? && GetOr(leaf, "field", Null).Str? ==>
      Conversation.ConditionOf(r.value) ==
        Some(Conversation.Simple(GetOr(leaf, "field", Null).s,
                                 Conversation.OperatorText(MappedOp(GetOr(leaf, "op", Str("eq")))),
                                 GetOr(leaf, "value", Null)))
  {
    var op := GetOr(leaf, "op", Str("eq"));
    if op.Arr? || op.Obj? then Failed("TypeError")
    else
      ThreeKeys("field_id", GetOr(leaf, "field", Null), "operator", MappedOp(op), "value", GetOr(leaf, "value", Null));
      Ok(Obj([("field_id", GetOr(leaf, "field", Null)), ("operator", MappedOp(op)),
               ("value", GetOr(leaf, "value", Null))]))
  }

  /** The evaluator reads a three-key internal-format dict as a simple condition. */
  lemma InternalConditionOf(field: string, op: Value, v: Value)
    ensures Conversation.ConditionOf(Obj([("field_id", Str(field)), ("operator", op), ("value", v)])) ==
      Some(Conversation.Simple(field, Conversation.OperatorText(op), v))
  {
    ThreeKeys("field_id", Str(field), "operator", op, "value", v);
  }

  /** The evaluator reads a three-key eApp-format dict as a leaf. */
  lemma EappConditionOf(field: string, op: Value, v: Value)
    ensures Conversation.ConditionOf(Obj([("field", Str(field)), ("op", op), ("value", v)])) ==
      Some(Conversation.Leaf(field, Conversation.OperatorText(op), v))
  {
    ThreeKeys("field", Str(field), "op", op, "value", v);
  }

  /** Equality leaves keep their meaning through the conversion as written. */
  lemma LeafToConditionKeepsEquality(leaf: seq<(string, Value)>, data: map<string, Value>)
    requires GetOr(leaf, "field", Null).Str?
    requires GetOr(leaf, "op", Str("eq")) in {Str("eq"), Str("neq")}
    ensures LeafToCondition(leaf).Ok?
    ensures var c := Conversation.ConditionOf(LeafToCondition(leaf).value);
      c.Some? && (Conversation.Eval(c.value, data) <==> Conversation.Eval(EappLeaf(leaf), data))
  {
    InternalConditionOf(GetOr(leaf, "field", Null).s, MappedOp(GetOr(leaf, "op", Str("eq"))), GetOr(leaf, "value", Null));
  }

  /** The conversion as written changes what a membership leaf means: `contains` became
      `in`, which tests the field value for membership in the expected value instead.
      A text field equal to the expected text fails the eApp leaf, which needs a list,
      yet passes the converted condition as a substring test. */
  lemma LeafToConditionReversesContains()
    ensures var leaf := [("field", Str("riders")), ("op", Str("contains")), ("value", Str("gmwb"))];
      var data := map["riders" := Str("gmwb")];
      !Conversation.Eval(EappLeaf(leaf), data) &&
      LeafToCondition(leaf).Ok? &&
      Conversation.ConditionOf(LeafToCondition(leaf).value).Some? &&
      Conversation.Eval(Conversation.ConditionOf(LeafToCondition(leaf).value).value, data)
  {
    var leaf := [("field", Str("riders")), ("op", Str("contains")), ("value", Str("gmwb"))];
    var data := map["riders" := Str("gmwb")];
    LeafParts(leaf, "riders", Str("contains"), Str("gmwb"));
    assert EappLeaf(leaf) == Conversation.Leaf("riders", "contains", Str("gmwb"));
    assert Conversation.FieldValue(data, "riders") == Str("gmwb");
    assert !Conversation.EvalLeaf(Str("gmwb"), "contains", Str("gmwb"));
    assert Conversation.ConditionOf(LeafToCondition(leaf).value) ==
      Some(Conversation.Simple("riders", "in", Str("gmwb")));
    assert "gmwb"[0..4] == "gmwb";
    assert PyIn(Str("gmwb"), Str("gmwb")) == Some(true);
    assert Conversation.EvalSimple(Str("gmwb"), "in", Str("gmwb"));
  }

  /** An ordering leaf becomes an internal condition with an operator the internal
      evaluator does not know, so it always holds after the conversion as written. */
  lemma LeafToConditionDropsOrdering()
    ensures var leaf := [("field", Str("age")), ("op", Str("gt")), ("value", Num(60.0))];
      var data := map["age" := Num(50.0)];
      !Conversation.Eval(EappLeaf(leaf), data) &&
      LeafToCondition(leaf).Ok? &&
      Conversation.ConditionOf(LeafToCondition(leaf).value).Some? &&
      Conversation.Eval(Conversation.ConditionOf(LeafToCondition(leaf).value).value, data)
  {
    var leaf := [("field", Str("age")), ("op", Str("gt")), ("value", Num(60.0))];
    var data := map["age" := Num(50.0)];
    LeafParts(leaf, "age", Str("gt"), Num(60.0));
    var before := EappLeaf(leaf);
    assert before == Conversation.Leaf("age", "gt", Num(60.0));
    assert !Conversation.Eval(before, data) by {
      assert Conversation.FieldValue(data, "age") == Num(50.0);
      assert PyLt(Num(60.0), Num(50.0)) == Some(false);
    }
    var after := Conversation.ConditionOf(LeafToCondition(leaf).value);
    assert after == Some(Conversation.Simple("age", "gt", Num(60.0))) by {
      assert MappedOp(Str("gt")) == Str("gt");
    }
    assert Conversation.Eval(after.value, data);
  }

  lemma LeafParts(leaf: seq<(string, Value)>, field: string, op: Value, v: Value)
    requires leaf == [("field", Str(field)), ("op", op), ("value", v)]
    ensures GetOr(leaf, "field", Null) == Str(field) && GetOr(leaf, "op", Str("eq")) == op
    ensures GetOr(leaf, "value", Null) == v
  {
    ThreeKeys("field", Str(field), "op", op, "value", v);
  }

  /** The meaning the condition evaluator gives an eApp leaf. */
  function EappLeaf(leaf: seq<(string, Value)>): Conversation.Condition
    requires GetOr(leaf, "field", Null).Str?
  {
    Conversation.Leaf(GetOr(leaf, "field", Null).s, Conversation.OperatorText(GetOr(leaf, "op", Str("eq"))),
                      GetOr(leaf, "value", Null))
  }

  /** The leaf conversion with its evident intent: `eq`/`neq` become the internal
      `equals`/`not_equals`, and every operator without an internal counterpart keeps
      the eApp leaf format, which the evaluator reads natively. */
  function LeafCondition(leaf: seq<(string, Value)>): (r: Result<Value>)
    ensures r.Failed? <==> GetOr(leaf, "op", Str("eq")).Arr? || GetOr(leaf, "op", Str("eq")).Obj?
    ensures r.Failed? ==> r.error == "TypeError"
    ensures var op := GetOr(leaf, "op", Str("eq"));
      r.Ok? && GetOr(leaf, "field", Null).Str? ==>
      Conversation.ConditionOf(r.value) ==
        Some(if op == Str("eq") || op == Str("neq")
             then Conversation.Simple(GetOr(leaf, "field", Null).s, Conversation.OperatorText(MappedOp(op)), GetOr(leaf, "value", Null))
             else Conversation.Leaf(GetOr(leaf, "field", Null).s, Conversation.OperatorText(op), GetOr(leaf, "value", Null)))
  {
    var op := GetOr(leaf, "op", Str("eq"));
    var field := GetOr(leaf, "field", Null);
    var value := GetOr(leaf, "value", Null);
    if op.Arr? || op.Obj? then Failed("TypeError")
    else if op == Str("eq") || op == Str("neq") then
      ThreeKeys("field_id", field, "operator", MappedOp(op), "value", value);
      Ok(Obj([("field_id", field), ("operator", MappedOp(op)), ("value", value)]))
    else
      ThreeKeys("field", field, "op", op, "value", value);
      Ok(Obj([("field", field), ("op", op), ("value", value)]))
  }

  /** The intended conversion keeps the meaning of every leaf, for all data. */
  lemma LeafConditionKeepsMeaning(leaf: seq<(string, Value)>, data: map<string, Value>)
    requires GetOr(leaf, "field", Null).Str?
    requires LeafCondition(leaf).Ok?
    ensures var c := Conversation.ConditionOf(LeafCondition(leaf).value);
      c.Some? && (Conversation.Eval(c.value, data) <==> Conversation.Eval(EappLeaf(leaf), data))
  {
    var op := GetOr(leaf, "op", Str("eq"));
    var field := GetOr(leaf, "field", Null).s;
    var value := GetOr(leaf, "value", Null);
    if op == Str("eq") || op == Str("neq") {
      InternalConditionOf(field, MappedOp(op), value);
    } else {
      EappConditionOf(field, op, value);
    }
  }

  /** `_adapt_visibility`: a dict with a "field" key becomes one converted leaf (the
      intended conversion); anything else is kept whole as a one-element list. */
  function AdaptVisibility(vis: Value): (r: Result<seq<Value>>)
    ensures r.Ok? ==> |r.value| == 1
    ensures r.Failed? ==> r.error in {"TypeError", "AttributeError"}
    ensures vis.Obj? && "field" in Keys(vis.members) ==>
      (r.Ok? <==> LeafCondition(vis.members).Ok?) && (r.Ok? ==> r.value == [LeafCondition(vis.members).value])
  {
    match PyIn(Str("field"), vis)
    case None => Failed("TypeError")
    case Some(isLeaf) =>
      if !isLeaf then Ok([vis])
      else if !vis.Obj? then Failed("AttributeError")
      else
        match LeafCondition(vis.members)
        case Failed(e) => Failed(e)
        case Ok(c) => Ok([c])
  }

  /** A compound visibility is stored unchanged; a leaf becomes exactly one condition
      that means what the leaf meant. */
  lemma VisibilityShapes(vis: Value, data: map<string, Value>)
    ensures vis.Obj? && "field" !in Keys(vis.members) ==> AdaptVisibility(vis) == Ok([vis])
    ensures vis.Obj? && "field" in Keys(vis.members) && GetOr(vis.members, "field", Null).Str? &&
            AdaptVisibility(vis).Ok? ==>
      |AdaptVisibility(vis).value| == 1 &&
      var c := Conversation.ConditionOf(AdaptVisibility(vis).value[0]);
      c.Some? && (Conversation.Eval(c.value, data) <==> Conversation.Eval(EappLeaf(vis.members), data))
  {
    if vis.Obj? && "field" in Keys(vis.members) && GetOr(vis.members, "field", Null).Str? &&
       AdaptVisibility(vis).Ok? {
      LeafConditionKeepsMeaning(vis.members, data);
    }
  }

  // ---------------------------------------------------------------------------
  // _adapt_question and _adapt_repeatable_group

  /** `_adapt_repeatable_group`: None when the group has no sub-fields, otherwise one
      text field whose default hint lists the sub-fields' labels. */
  function AdaptRepeatableGroup(q: seq<(string, Value)>): (r: Result<Option<seq<(string, Value)>>>)
    ensures var config := GetOr(q, "groupConfig", Obj([]));
      r == Ok(None) <==> config.Obj? && !Truthy(GetOr(config.members, "fields", Arr([])))
    ensures r.Failed? ==> r.error in {"AttributeError", "TypeError", "KeyError"}
    ensures r.Ok? && r.value.Some? ==>
      Keys(r.value.value) == ["field_id", "type", "label", "required", "hint", "validation"] &&
      Some(r.value.value[0].1) == Get(q, "id") && r.value.value[1].1 == Str("text") &&
      r.value.value[5].1 == Obj([])
  {
    var config := GetOr(q, "groupConfig", Obj([]));
    if !config.Obj? then Failed("AttributeError")
    else
      var subFields := GetOr(config.members, "fields", Arr([]));
      if !Truthy(subFields) then Ok(None)
      else
        match Elements(subFields)
        case None => Failed("TypeError")
        case Some(items) =>
          match AllDicts(items)
          case None => Failed("AttributeError")
          case Some(dicts) =>
            var labels := MapSeq(dicts, (f: seq<(string, Value)>) => GetOr(f, "label", GetOr(f, "id", Str(""))));
            match Get(q, "id")
            case None => Failed("KeyError")
            case Some(id) =>
              match Texts(labels)
              case None => Failed("TypeError")
              case Some(texts) =>
                Ok(Some([("field_id", id), ("type", Str("text")), ("label", GetOr(q, "label", id)),
                         ("required", GetOr(q, "required", Bool(false))),
                         ("hint", GetOr(q, "hint", Str("Collect: " + Join(", ", texts)))),
                         ("validation", Obj([]))]))
  }

  /** `field[key] = value` when the question's value is truthy. */
  function WithKey(field: seq<(string, Value)>, key: string, v: Value): seq<(string, Value)>
  {
    if Truthy(v) then field + [(key, v)] else field
  }

  /** `field[key] = part` for a part the question has. */
  function WithPart(field: seq<(string, Value)>, key: string, part: Option<Value>): seq<(string, Value)>
  {
    if part.Some? then field + [(key, part.value)] else field
  }

  /** The adapted `validation` value, when the question's rules are truthy. */
  function ValidationPart(q: seq<(string, Value)>): Result<Option<Value>>
  {
    var rules := GetOr(q, "validation", Null);
    if !Truthy(rules) then Ok(None)
    else
      match AdaptedValidation(rules)
      case Failed(e) => Failed(e)
      case Ok(d) => Ok(Some(Obj(d)))
  }

  /** The adapted `conditions` value, when the question's visibility is truthy. */
  function ConditionsPart(q: seq<(string, Value)>): Result<Option<Value>>
  {
    var vis := GetOr(q, "visibility", Null);
    if !Truthy(vis) then Ok(None)
    else
      match AdaptVisibility(vis)
      case Failed(e) => Failed(e)
      case Ok(cs) => Ok(Some(Arr(cs)))
  }

  /** The field dict of an ordinary question, built key by key. */
  function FieldOf(q: seq<(string, Value)>, t: string, id: Value, validation: Option<Value>,
                   conditions: Option<Value>): seq<(string, Value)>
  {
    var base := [("field_id", id), ("type", Str(t)), ("label", GetOr(q, "label", id)),
                 ("required", GetOr(q, "required", Bool(false)))];
    var withOptions := WithKey(WithKey(base, "hint", GetOr(q, "hint", Null)), "options", GetOr(q, "options", Null));
    WithPart(WithPart(withOptions, "validation", validation), "conditions", conditions)
  }

  /** `_adapt_question`: None for a question that maps to no field. */
  function AdaptQuestion(q: seq<(string, Value)>): (r: Result<Option<seq<(string, Value)>>>)
    ensures GetOr(q, "type", Str("short_text")) == Str("allocation_table") ==> r == Ok(None)
    ensures GetOr(q, "type", Str("short_text")) !in {Str("repeatable_group"), Str("allocation_table")} && r.Ok? ==>
      r.value.Some?
    ensures r.Ok? && r.value.Some? ==> Get(r.value.value, "field_id") == Get(q, "id")
  {
    var qtype := GetOr(q, "type", Str("short_text"));
    if qtype == Str("repeatable_group") then AdaptRepeatableGroup(q)
    else if qtype == Str("allocation_table") then Ok(None)
    else
      match FieldTypeOf(qtype)
      case None => Failed("TypeError")
      case Some(t) =>
        match Get(q, "id")
        case None => Failed("KeyError")
        case Some(id) =>
          match ValidationPart(q)
          case Failed(e) => Failed(e)
          case Ok(validation) =>
            match ConditionsPart(q)
            case Failed(e) => Failed(e)
            case Ok(conditions) => Ok(Some(FieldOf(q, t, id, validation, conditions)))
  }

  lemma KeysAppendOne(f: seq<(string, Value)>, key: string, v: Value)
    ensures Keys(f + [(key, v)]) == Keys(f) + [key]
  {
    var ks := Keys(f + [(key, v)]);
    assert forall i :: 0 <= i < |ks| ==> ks[i] == (Keys(f) + [key])[i];
  }

  lemma KeysWithKey(f: seq<(string, Value)>, key: string, v: Value)
    ensures Keys(WithKey(f, key, v)) == Keys(f) + (if Truthy(v) then [key] else [])
    ensures |WithKey(f, key, v)| >= |f| && WithKey(f, key, v)[..|f|] == f
  {
    if Truthy(v) { KeysAppendOne(f, key, v); }
  }

  lemma KeysWithPart(f: seq<(string, Value)>, key: string, part: Option<Value>)
    ensures Keys(WithPart(f, key, part)) == Keys(f) + (if part.Some? then [key] else [])
    ensures |WithPart(f, key, part)| >= |f| && WithPart(f, key, part)[..|f|] == f
  {
    if part.Some? { KeysAppendOne(f, key, part.value); }
  }

  /** The keys of an ordinary question's field, in the order the adapter adds them. */
  lemma FieldKeys(q: seq<(string, Value)>, t: string, id: Value, validation: Option<Value>, conditions: Option<Value>)
    ensures var f := FieldOf(q, t, id, validation, conditions);
      Keys(f) == ["field_id", "type", "label", "required"] +
        (if Truthy(GetOr(q, "hint", Null)) then ["hint"] else []) +
        (if Truthy(GetOr(q, "options", Null)) then ["options"] else []) +
        (if validation.Some? then ["validation"] else []) +
        (if conditions.Some? then ["conditions"] else [])
    ensures var f := FieldOf(q, t, id, validation, conditions);
      |f| >= 4 && f[0] == ("field_id", id) && f[1] == ("type", Str(t))
  {
    var base := [("field_id", id), ("type", Str(t)), ("label", GetOr(q, "label", id)),
                 ("required", GetOr(q, "required", Bool(false)))];
    assert Keys(base) == ["field_id", "type", "label", "required"];
    var h := WithKey(base, "hint", GetOr(q, "hint", Null));
    KeysWithKey(base, "hint", GetOr(q, "hint", Null));
    var o := WithKey(h, "options", GetOr(q, "options", Null));
    KeysWithKey(h, "options", GetOr(q, "options", Null));
    var v := WithPart(o, "validation", validation);
    KeysWithPart(o, "validation", validation);
    var c := WithPart(v, "conditions", conditions);
    KeysWithPart(v, "conditions", conditions);
    assert c == FieldOf(q, t, id, validation, conditions);
    assert c[..4] == base by {
      assert c[..|v|][..|o|][..|h|][..4] == base;
    }
  }

  /** An ordinary question that adapts becomes a field with its id and the mapped
      type, and carries `hint`, `options`, `validation` and `conditions` exactly when
      the question's value for them is truthy. */
  lemma OrdinaryQuestionShape(q: seq<(string, Value)>)
    requires GetOr(q, "type", Str("short_text")) !in {Str("repeatable_group"), Str("allocation_table")}
    requires AdaptQuestion(q).Ok?
    ensures AdaptQuestion(q).value.Some?
    ensures var f := AdaptQuestion(q).value.value;
      Get(f, "field_id") == Get(q, "id") &&
      Get(f, "type") == Some(Str(FieldTypeOf(GetOr(q, "type", Str("short_text"))).value)) &&
      ("hint" in Keys(f) <==> Truthy(GetOr(q, "hint", Null))) &&
      ("options" in Keys(f) <==> Truthy(GetOr(q, "options", Null))) &&
      ("validation" in Keys(f) <==> Truthy(GetOr(q, "validation", Null))) &&
      ("conditions" in Keys(f) <==> Truthy(GetOr(q, "visibility", Null)))
  {
    var t := FieldTypeOf(GetOr(q, "type", Str("short_text"))).value;
    var id := Get(q, "id").value;
    var validation := ValidationPart(q).value;
    var conditions := ConditionsPart(q).value;
    AdaptOrdinary(q, t, id, validation, conditions);
    FieldMembers(q, t, id, validation, conditions);
  }

  /** What an ordinary question's field holds, key by key. */
  lemma FieldMembers(q: seq<(string, Value)>, t: string, id: Value, validation: Option<Value>,
                     conditions: Option<Value>)
    ensures var f := FieldOf(q, t, id, validation, conditions);
      Get(f, "field_id") == Some(id) && Get(f, "type") == Some(Str(t)) &&
      ("hint" in Keys(f) <==> Truthy(GetOr(q, "hint", Null))) &&
      ("options" in Keys(f) <==> Truthy(GetOr(q, "options", Null))) &&
      ("validation" in Keys(f) <==> validation.Some?) &&
      ("conditions" in Keys(f) <==> conditions.Some?)
  {
    FieldKeys(q, t, id, validation, conditions);
    var f := FieldOf(q, t, id, validation, conditions);
    assert f[1..][0] == ("type", Str(t));
    OptionalKeys(Truthy(GetOr(q, "hint", Null)), Truthy(GetOr(q, "options", Null)),
                 validation.Some?, conditions.Some?);
  }

  /** Which optional keys a field lists after its four fixed ones. */
  lemma OptionalKeys(h: bool, o: bool, v: bool, c: bool)
    ensures var ks := ["field_id", "type", "label", "required"] + (if h then ["hint"] else []) +
        (if o then ["options"] else []) + (if v then ["validation"] else []) +
        (if c then ["conditions"] else []);
      ("hint" in ks <==> h) && ("options" in ks <==> o) &&
      ("validation" in ks <==> v) && ("conditions" in ks <==> c)
  {
  }

  /** The field an ordinary question adapts to, with its parts. */
  lemma AdaptOrdinary(q: seq<(string, Value)>, t: string, id: Value, validation: Option<Value>,
                      conditions: Option<Value>)
    requires GetOr(q, "type", Str("short_text")) !in {Str("repeatable_group"), Str("allocation_table")}
    requires FieldTypeOf(GetOr(q, "type", Str("short_text"))) == Some(t) && Get(q, "id") == Some(id)
    requires ValidationPart(q) == Ok(validation) && ConditionsPart(q) == Ok(conditions)
    ensures AdaptQuestion(q) == Ok(Some(FieldOf(q, t, id, validation, conditions)))
    ensures validation.Some? <==> Truthy(GetOr(q, "validation", Null))
    ensures conditions.Some? <==> Truthy(GetOr(q, "visibility", Null))
  {
  }

  /** Allocation tables and repeatable groups without sub-fields map to no field; a
      group with sub-fields becomes one text field with a hint and an empty
      validation dict. */
  lemma SkippedAndGroupedQuestions(q: seq<(string, Value)>)
    ensures GetOr(q, "type", Str("short_text")) == Str("allocation_table") ==> AdaptQuestion(q) == Ok(None)
    ensures var config := GetOr(q, "groupConfig", Obj([]));
      (GetOr(q, "type", Str("short_text")) == Str("repeatable_group") && config.Obj? &&
       !Truthy(GetOr(config.members, "fields", Arr([])))) ==> AdaptQuestion(q) == Ok(None)
    ensures (GetOr(q, "type", Str("short_text")) == Str("repeatable_group") &&
             AdaptQuestion(q).Ok? && AdaptQuestion(q).value.Some?) ==>
      var f := AdaptQuestion(q).value.value;
      Keys(f) == ["field_id", "type", "label", "required", "hint", "validation"] &&
      Some(f[0].1) == Get(q, "id") && f[1].1 == Str("text") && f[5].1 == Obj([])
  {
    if GetOr(q, "type", Str("short_text")) == Str("repeatable_group") &&
       AdaptQuestion(q).Ok? && AdaptQuestion(q).value.Some? {
      var f := AdaptQuestion(q).value.value;
      assert Keys(f) == ["field_id", "type", "label", "required", "hint", "validation"];
    }
  }

  // ---------------------------------------------------------------------------
  // _adapt_page and adapt_eapp_schema

  /** A step dict: `step_id`, `title` and `fields`. */
  datatype AdaptedStep = AdaptedStep(stepId: Value, title: Value, fields: seq<seq<(string, Value)>>)

  /** One entry of `page.get("questions", [])`. */
  function QuestionOf(v: Value): Result<Option<seq<(string, Value)>>>
  {
    if v.Obj? then AdaptQuestion(v.members) else Failed("AttributeError")
  }

  /** `_adapt_page` */
  function AdaptedPage(page: seq<(string, Value)>): Result<AdaptedStep>
  {
    match Elements(GetOr(page, "questions", Arr([])))
    case None => Failed("TypeError")
    case Some(items) =>
      match Collect(MapSeq(items, QuestionOf))
      case Failed(e) => Failed(e)
      case Ok(fields) =>
        match Get(page, "id")
        case None => Failed("KeyError")
        case Some(id) => Ok(AdaptedStep(id, GetOr(page, "title", Str("")), fields))
  }

  /** A page keeps its id and title (default ""), and its fields are the adapted
      questions that map to a field, in question order. */
  lemma PageKeepsQuestionOrder(page: seq<(string, Value)>, items: seq<Value>, outs: seq<Option<seq<(string, Value)>>>)
    requires Elements(GetOr(page, "questions", Arr([]))) == Some(items)
    requires |outs| == |items| && forall i :: 0 <= i < |items| ==> QuestionOf(items[i]) == Ok(outs[i])
    requires "id" in Keys(page)
    ensures AdaptedPage(page) == Ok(AdaptedStep(GetOr(page, "id", Null), GetOr(page, "title", Str("")), Present(outs)))
  {
    var rs := MapSeq(items, QuestionOf);
    CollectOk(rs, outs);
    GetFindsKey(page, "id");
  }

  /** `_adapt_page` with its loop over the questions. */
  method AdaptPage(page: seq<(string, Value)>) returns (r: Result<AdaptedStep>)
    ensures r == AdaptedPage(page)
  {
    var questions := Elements(GetOr(page, "questions", Arr([])));
    if questions.None? {
      return Failed("TypeError");
    }
    var items := questions.value;
    ghost var rs := MapSeq(items, QuestionOf);
    var fields: seq<seq<(string, Value)>> := [];
    var i := 0;
    while i < |items|
      invariant 0 <= i <= |items|
      invariant Collect(rs[..i]) == Ok(fields)
    {
      assert rs[..i + 1][..i] == rs[..i];
      var field := QuestionOf(items[i]);
      if field.Failed? {
        CollectStopsAtFailure(rs, i + 1);
        return Failed(field.error);
      }
      if field.value.Some? {
        fields := fields + [field.value.value];
      }
      i := i + 1;
    }
    assert rs[..i] == rs;
    var id := Get(page, "id");
    if id.None? {
      return Failed("KeyError");
    }
    r := Ok(AdaptedStep(id.value, GetOr(page, "title", Str("")), fields));
  }

  /** One entry of `eapp.get("pages", [])`: its step, or None for a page without fields. */
  function PageStep(v: Value): Result<Option<AdaptedStep>>
  {
    if !v.Obj? then Failed("AttributeError")
    else
      match AdaptedPage(v.members)
      case Failed(e) => Failed(e)
      case Ok(s) => Ok(if s.fields != [] then Some(s) else None)
  }

  /** `adapt_eapp_schema` */
  function AdaptedSchema(eapp: seq<(string, Value)>): Result<seq<AdaptedStep>>
  {
    match Elements(GetOr(eapp, "pages", Arr([])))
    case None => Failed("TypeError")
    case Some(pages) => Collect(MapSeq(pages, PageStep))
  }

  predicate HasFields(s: AdaptedStep) { s.fields != [] }

  lemma {:induction false} PresentIsFilter(steps: seq<AdaptedStep>)
    ensures Present(MapSeq(steps, (s: AdaptedStep) => if s.fields != [] then Some(s) else None)) ==
            Filter(steps, HasFields)
  {
    if steps != [] {
      var keep := (s: AdaptedStep) => if s.fields != [] then Some(s) else None;
      assert MapSeq(steps, keep)[1..] == MapSeq(steps[1..], keep);
      PresentIsFilter(steps[1..]);
    }
  }

  /** The schema's steps are its adapted pages in page order, without the pages that
      ended up with no fields. */
  lemma SchemaDropsEmptyPages(eapp: seq<(string, Value)>, pages: seq<Value>, steps: seq<AdaptedStep>)
    requires Elements(GetOr(eapp, "pages", Arr([]))) == Some(pages)
    requires |steps| == |pages| && forall i :: 0 <= i < |pages| ==> pages[i].Obj? && AdaptedPage(pages[i].members) == Ok(steps[i])
    ensures AdaptedSchema(eapp) == Ok(Filter(steps, HasFields))
    ensures forall s :: s in AdaptedSchema(eapp).value ==> s.fields != [] && s in steps
  {
    var keep := (s: AdaptedStep) => if s.fields != [] then Some(s) else None;
    var rs := MapSeq(pages, PageStep);
    var os := MapSeq(steps, keep);
    forall i | 0 <= i < |rs|
      ensures rs[i] == Ok(os[i])
    {
      PageStepOk(pages[i], steps[i]);
    }
    CollectOk(rs, os);
    PresentIsFilter(steps);
    FilterAll(steps, HasFields);
  }

  lemma PageStepOk(page: Value, step: AdaptedStep)
    requires page.Obj? && AdaptedPage(page.members) == Ok(step)
    ensures PageStep(page) == Ok(if step.fields != [] then Some(step) else None)
  {
  }

  /** A page that raises makes the whole adaptation raise, with the first such error. */
  lemma SchemaFailsAtFirstBadPage(eapp: seq<(string, Value)>, pages: seq<Value>, k: nat)
    requires Elements(GetOr(eapp, "pages", Arr([]))) == Some(pages)
    requires k < |pages| && PageStep(pages[k]).Failed? && forall i :: 0 <= i < k ==> PageStep(pages[i]).Ok?
    ensures AdaptedSchema(eapp) == Failed(PageStep(pages[k]).error)
  {
    CollectFails(MapSeq(pages, PageStep), k);
  }

  /** `adapt_eapp_schema` with its loop over the pages. */
  method AdaptEappSchema(eapp: seq<(string, Value)>) returns (r: Result<seq<AdaptedStep>>)
    ensures r == AdaptedSchema(eapp)
  {
    var pages := Elements(GetOr(eapp, "pages", Arr([])));
    if pages.None? {
      return Failed("TypeError");
    }
    var items := pages.value;
    ghost var rs := MapSeq(items, PageStep);
    var steps: seq<AdaptedStep> := [];
    var i := 0;
    while i < |items|
      invariant 0 <= i <= |items|
      invariant Collect(rs[..i]) == Ok(steps)
    {
      assert rs[..i + 1][..i] == rs[..i];
      var page := items[i];
      if !page.Obj? {
        CollectStopsAtFailure(rs, i + 1);
        return Failed("AttributeError");
      }
      var step := AdaptPage(page.members);
      if step.Failed? {
        CollectStopsAtFailure(rs, i + 1);
        return Failed(step.error);
      }
      if step.value.fields != [] {
        steps := steps + [step.value];
      }
      i := i + 1;
    }
    assert rs[..i] == rs;
    r := Ok(steps);
  }
}
