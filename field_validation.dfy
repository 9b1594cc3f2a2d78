/** Type- and rule-based validation of one candidate field value
    (ai-service/app/services/validation_service.py). */
module FieldValidation {
  import opened Values
  import opened Conversation

  /** The field types that have a validator; any other type accepts every value. */
  const ValidatedTypes: set<string> :=
    {"text", "textarea", "email", "phone", "ssn", "number", "currency", "select", "checkbox", "date"}

  /** A numeric rule of the validation dict; a rule that is not a number is ignored. */
  function Bound(validation: map<string, Value>, key: string): Option<real>
  {
    if key in validation then NumberOf(validation[key]) else None
  }

  /** The text of a rule, as an f-string renders it. */
  function RuleText(validation: map<string, Value>, key: string, prims: Primitives): string
  {
    if key in validation then PyStr(validation[key], prims) else ""
  }

  predicate AtLeast(x: real, bound: Option<real>) { bound.None? || x >= bound.value }

  predicate AtMost(x: real, bound: Option<real>) { bound.None? || x <= bound.value }

  /** The "pattern" rule holds: absent, not a string, or matching the whole text. */
  predicate PatternHolds(validation: map<string, Value>, s: string, prims: Primitives)
  {
    "pattern" !in validation || !validation["pattern"].Str? || prims.fullMatch(validation["pattern"].s, s)
  }

  /** `_validate_text`: None when the text passes, else the first rule's message. */
  function CheckText(name: string, s: string, validation: map<string, Value>, prims: Primitives): (r: Option<string>)
    ensures r.None? <==>
      AtLeast((|s| as real), Bound(validation, "min_length")) && AtMost((|s| as real), Bound(validation, "max_length")) &&
      PatternHolds(validation, s, prims)
    ensures r.Some? ==> name <= r.value
    ensures !AtLeast((|s| as real), Bound(validation, "min_length")) ==>
      r == Some(name + " must be at least " + RuleText(validation, "min_length", prims) + " characters.")
    ensures (AtLeast((|s| as real), Bound(validation, "min_length")) &&
             !AtMost((|s| as real), Bound(validation, "max_length"))) ==>
      r == Some(name + " must be at most " + RuleText(validation, "max_length", prims) + " characters.")
    ensures (AtLeast((|s| as real), Bound(validation, "min_length")) &&
             AtMost((|s| as real), Bound(validation, "max_length")) && !PatternHolds(validation, s, prims)) ==>
      r == Some(name + " format is invalid.")
  {
    if !AtLeast((|s| as real), Bound(validation, "min_length")) then
      Some(name + " must be at least " + RuleText(validation, "min_length", prims) + " characters.")
    else if !AtMost((|s| as real), Bound(validation, "max_length")) then
      Some(name + " must be at most " + RuleText(validation, "max_length", prims) + " characters.")
    else if !PatternHolds(validation, s, prims) then
      Some(name + " format is invalid.")
    else None
  }

  predicate NoAtOrSpace(t: string)
  {
    forall i | 0 <= i < |t| :: t[i] != '@' && !IsSpace(t[i])
  }

  /** A full match of `[^@\s]+@[^@\s]+\.[^@\s]+`: one '@' with a non-empty local part,
      and a domain with a '.' that is neither its first nor its last character. */
  predicate IsEmailAddress(s: string)
  {
    match IndexOf(s, '@')
    case None => false
    case Some(at) =>
      var domain := s[at + 1..];
      at > 0 && NoAtOrSpace(s[..at]) && NoAtOrSpace(domain)
      && exists k | 1 <= k < |domain| - 1 :: domain[k] == '.'
  }

  /** The pattern read as a grammar: local "@" host "." tail, no part empty. */
  ghost predicate EmailGrammar(s: string)
  {
    exists local: string, host: string, tail: string ::
      s == local + "@" + host + "." + tail
      && local != [] && host != [] && tail != []
      && NoAtOrSpace(local) && NoAtOrSpace(host) && NoAtOrSpace(tail)
  }

  lemma EmailShapeIsGrammar(s: string)
    ensures IsEmailAddress(s) <==> EmailGrammar(s)
  {
    if IsEmailAddress(s) { EmailShapeHasGrammar(s); }
    if EmailGrammar(s) { GrammarHasEmailShape(s); }
  }

  lemma EmailShapeHasGrammar(s: string)
    requires IsEmailAddress(s)
    ensures EmailGrammar(s)
  {
    var at := IndexOf(s, '@').value;
    var domain := s[at + 1..];
    var k :| 1 <= k < |domain| - 1 && domain[k] == '.';
    DomainParts(domain, k);
    var local, host, tail := s[..at], domain[..k], domain[k + 1..];
    assert s == local + "@" + domain;
    GrammarWitness(s, local, domain, host, tail);
  }

  /** A domain cut at an inner '.' gives two non-empty parts without '@' or blanks. */
  lemma DomainParts(domain: string, k: nat)
    requires NoAtOrSpace(domain) && 1 <= k < |domain| - 1 && domain[k] == '.'
    ensures domain == domain[..k] + "." + domain[k + 1..]
    ensures NoAtOrSpace(domain[..k]) && NoAtOrSpace(domain[k + 1..])
  {
    NoAtOrSpaceSlice(domain, 0, k);
    NoAtOrSpaceSlice(domain, k + 1, |domain|);
    assert domain[0..k] == domain[..k] && domain[k + 1..|domain|] == domain[k + 1..];
  }

  lemma GrammarWitness(s: string, local: string, domain: string, host: string, tail: string)
    requires s == local + "@" + domain && domain == host + "." + tail
    requires local != [] && host != [] && tail != []
    requires NoAtOrSpace(local) && NoAtOrSpace(host) && NoAtOrSpace(tail)
    ensures EmailGrammar(s)
  {
    assert s == local + "@" + host + "." + tail;
  }

  lemma NoAtOrSpaceSlice(t: string, a: nat, b: nat)
    requires NoAtOrSpace(t) && a <= b <= |t|
    ensures NoAtOrSpace(t[a..b])
  {
    forall i | 0 <= i < b - a ensures t[a..b][i] != '@' && !IsSpace(t[a..b][i]) {
      assert t[a..b][i] == t[a + i];
    }
  }

  lemma GrammarHasEmailShape(s: string)
    requires EmailGrammar(s)
    ensures IsEmailAddress(s)
  {
    var local: string, host: string, tail: string :|
      s == local + "@" + host + "." + tail
      && local != [] && host != [] && tail != []
      && NoAtOrSpace(local) && NoAtOrSpace(host) && NoAtOrSpace(tail);
    GrammarParts(local, host, tail);
  }

  lemma GrammarParts(local: string, host: string, tail: string)
    requires local != [] && host != [] && tail != []
    requires NoAtOrSpace(local) && NoAtOrSpace(host) && NoAtOrSpace(tail)
    ensures IsEmailAddress(local + "@" + host + "." + tail)
  {
    var domain := host + "." + tail;
    var s := local + "@" + domain;
    assert local + "@" + host + "." + tail == s;
    var at := |local|;
    assert s[..at] == local && s[at + 1..] == domain && s[at] == '@';
    assert '@' !in local;
    IndexOfFirst(s, '@', at);
    assert domain[|host|] == '.';
    DottedNoAtOrSpace(host, tail);
  }

  lemma DottedNoAtOrSpace(host: string, tail: string)
    requires NoAtOrSpace(host) && NoAtOrSpace(tail)
    ensures NoAtOrSpace(host + "." + tail)
  {
    var domain := host + "." + tail;
    forall i | 0 <= i < |domain| ensures domain[i] != '@' && !IsSpace(domain[i]) {
      if i < |host| {
        assert domain[i] == host[i];
      } else if i > |host| {
        assert domain[i] == tail[i - |host| - 1];
      }
    }
  }

  /** `_validate_email` */
  function CheckEmail(name: string, s: string, validation: map<string, Value>, prims: Primitives): Option<string>
  {
    if !IsEmailAddress(s) then Some(name + " must be a valid email address.")
    else CheckText(name, s, validation, prims)
  }

  /** The digits that survive `re.sub(r"\D", "", s)`. */
  function Digits(s: string): string
  {
    Filter(s, IsDigit)
  }

  /** `_validate_phone` */
  function CheckPhone(name: string, s: string, validation: map<string, Value>, prims: Primitives): (r: Option<string>)
    ensures "pattern" in validation ==> (r.None? <==> PatternHolds(validation, s, prims))
    ensures "pattern" !in validation ==> (r.None? <==> |Digits(s)| >= 10)
    ensures r.Some? ==> name <= r.value
  {
    if "pattern" in validation then
      if PatternHolds(validation, s, prims) then None else Some(name + " format is invalid.")
    else if |Digits(s)| < 10 then Some(name + " must have at least 10 digits.")
    else None
  }

  /** A full match of the default `^\d{3}-\d{2}-\d{4}$`. */
  predicate IsSsn(s: string)
  {
    |s| == 11 && forall i | 0 <= i < 11 :: if i == 3 || i == 6 then s[i] == '-' else IsDigit(s[i])
  }

  predicate AllDigits(t: string) { forall i | 0 <= i < |t| :: IsDigit(t[i]) }

  lemma SsnShapeIsGrammar(s: string)
    ensures IsSsn(s) <==>
      exists area: string, group: string, serial: string ::
        s == area + "-" + group + "-" + serial
        && |area| == 3 && |group| == 2 && |serial| == 4
        && AllDigits(area) && AllDigits(group) && AllDigits(serial)
  {
    if IsSsn(s) {
      var area, group, serial := s[..3], s[4..6], s[7..];
      assert s == area + "-" + group + "-" + serial;
      assert AllDigits(area) by {
        forall i | 0 <= i < 3 ensures IsDigit(area[i]) { assert area[i] == s[i]; }
      }
      assert AllDigits(group) by {
        forall i | 0 <= i < 2 ensures IsDigit(group[i]) { assert group[i] == s[4 + i]; }
      }
      assert AllDigits(serial) by {
        forall i | 0 <= i < 4 ensures IsDigit(serial[i]) { assert serial[i] == s[7 + i]; }
      }
    }
  }

  /** `\d` is not only ASCII: an SSN written in Arabic-Indic digits has the default shape. */
  lemma SsnInArabicIndicDigits()
    ensures IsSsn("\U{0661}\U{0662}\U{0663}-\U{0664}\U{0665}-\U{0666}\U{0667}\U{0668}\U{0669}")
    ensures !IsSsn("123-45-678x")
  {
    assert "123-45-678x"[10] == 'x';
  }

  /** `_validate_ssn`: the "pattern" rule, or the default shape. */
  function CheckSsn(name: string, s: string, validation: map<string, Value>, prims: Primitives): (r: Option<string>)
    ensures "pattern" in validation ==> (r.None? <==> PatternHolds(validation, s, prims))
    ensures "pattern" !in validation ==> (r.None? <==>
      exists area: string, group: string, serial: string ::
        s == area + "-" + group + "-" + serial
        && |area| == 3 && |group| == 2 && |serial| == 4
        && AllDigits(area) && AllDigits(group) && AllDigits(serial))
    ensures r.Some? ==> name <= r.value
  {
    SsnShapeIsGrammar(s);
    var ok := if "pattern" in validation then PatternHolds(validation, s, prims) else IsSsn(s);
    if ok then None else Some(name + " must be in format XXX-XX-XXXX.")
  }

  /** `_validate_number`, and `_validate_currency`, which delegates to it. */
  function CheckNumber(name: string, value: Value, validation: map<string, Value>, prims: Primitives): Option<string>
  {
    match ToFloat(value, prims)
    case None => Some(name + " must be a number.")
    case Some(n) =>
      if !AtLeast(n, Bound(validation, "min_value")) then
        Some(name + " must be at least " + RuleText(validation, "min_value", prims) + ".")
      else if !AtMost(n, Bound(validation, "max_value")) then
        Some(name + " must be at most " + RuleText(validation, "max_value", prims) + ".")
      else None
  }

  /** `opt.get("label", opt["value"])`, as text. */
  function OptionCaption(o: SelectOption, prims: Primitives): string
  {
    PyStr(if o.labelText.Some? then o.labelText.value else o.value, prims)
  }

  /** `_validate_select`: with a non-empty option list, the value must equal one of the
      options' values. */
  function CheckSelect(name: string, options: Option<seq<SelectOption>>, value: Value, prims: Primitives): Option<string>
  {
    if options.Some? && options.value != [] && !InList(value, OptionValues(options.value)) then
      Some(name + " must be one of: " + Join(", ", MapSeq(options.value, (o: SelectOption) => OptionCaption(o, prims))) + ".")
    else None
  }

  /** `_validate_checkbox` */
  function CheckCheckbox(name: string, value: Value): Option<string>
  {
    if value.Bool? then None else Some(name + " must be true or false.")
  }

  /** `_validate_date`: a date-time when the text has a 'T', a date otherwise. */
  function CheckDate(name: string, s: string, prims: Primitives): Option<string>
  {
    var ok := if 'T' in s then prims.isoDateTime(s) else prims.isoDate(s);
    if ok then None else Some(name + " must be a valid date (YYYY-MM-DD).")
  }

  /** `_VALIDATORS[field_type](field, value, validation)`; None when the value passes. */
  function TypeCheck(f: TrackedField, value: Value, prims: Primitives): Option<string>
  {
    var s := PyStr(value, prims);
    var t := f.fieldType;
    if t == "text" || t == "textarea" then CheckText(f.labelText, s, f.validation, prims)
    else if t == "email" then CheckEmail(f.labelText, s, f.validation, prims)
    else if t == "phone" then CheckPhone(f.labelText, s, f.validation, prims)
    else if t == "ssn" then CheckSsn(f.labelText, s, f.validation, prims)
    else if t == "number" || t == "currency" then CheckNumber(f.labelText, value, f.validation, prims)
    else if t == "select" then CheckSelect(f.labelText, f.options, value, prims)
    else if t == "checkbox" then CheckCheckbox(f.labelText, value)
    else if t == "date" then CheckDate(f.labelText, s, prims)
    else None
  }

  /** `validation.get("custom_message")`; None when absent. */
  function CustomMessage(f: TrackedField): Value
  {
    if "custom_message" in f.validation then f.validation["custom_message"] else Null
  }

  /** `validate_field`: (is_valid, error_message).  A blank value is valid exactly when
      the field is optional; otherwise the type's validator decides, and a truthy
      "custom_message" rule replaces its message. */
  function ValidateField(f: TrackedField, value: Value, prims: Primitives): (r: (bool, Option<string>))
    ensures r.0 <==> r.1.None?
    ensures IsBlank(value) ==> (r.0 <==> !f.required)
    ensures IsBlank(value) && f.required ==>
      r.1 == Some((if f.labelText != [] then f.labelText else f.fieldId) + " is required.")
    ensures !IsBlank(value) ==> (r.0 <==> TypeCheck(f, value, prims).None?)
    ensures !IsBlank(value) && TypeCheck(f, value, prims).Some? ==>
      r.1 == Some(if Truthy(CustomMessage(f)) then PyStr(CustomMessage(f), prims) else TypeCheck(f, value, prims).value)
    ensures !IsBlank(value) && f.fieldType !in ValidatedTypes ==> r.0
  {
    if IsBlank(value) then
      if f.required then
        (false, Some((if f.labelText != [] then f.labelText else f.fieldId) + " is required."))
      else (true, None)
    else
      var custom := CustomMessage(f);
      match TypeCheck(f, value, prims)
      case None => (true, None)
      case Some(err) => (false, Some(if Truthy(custom) then PyStr(custom, prims) else err))
  }

  // ---------------------------------------------------------------------------
  // The rule each field type enforces

  lemma CustomMessageReplaces(f: TrackedField, value: Value, prims: Primitives, m: string)
    requires !IsBlank(value) && "custom_message" in f.validation && f.validation["custom_message"] == Str(m) && m != []
    ensures !ValidateField(f, value, prims).0 ==> ValidateField(f, value, prims).1 == Some(m)
  {
  }

  lemma TextRule(f: TrackedField, value: Value, prims: Primitives)
    requires !IsBlank(value) && f.fieldType in {"text", "textarea"}
    ensures var s := PyStr(value, prims);
      ValidateField(f, value, prims).0 <==>
        AtLeast((|s| as real), Bound(f.validation, "min_length"))
        && AtMost((|s| as real), Bound(f.validation, "max_length"))
        && PatternHolds(f.validation, s, prims)
    ensures var s := PyStr(value, prims);
      !Truthy(CustomMessage(f)) ==> ValidateField(f, value, prims).1 == CheckText(f.labelText, s, f.validation, prims)
  {
  }

  /** An accepted email value is an address of the pattern's grammar that also meets
      the text rules; an address meeting them is accepted. */
  lemma EmailRule(f: TrackedField, value: Value, prims: Primitives)
    requires !IsBlank(value) && f.fieldType == "email"
    ensures var s := PyStr(value, prims);
      ValidateField(f, value, prims).0 <==>
        EmailGrammar(s) && CheckText(f.labelText, s, f.validation, prims).None?
  {
    EmailShapeIsGrammar(PyStr(value, prims));
  }

  lemma PhoneRule(f: TrackedField, value: Value, prims: Primitives)
    requires !IsBlank(value) && f.fieldType == "phone"
    ensures "pattern" !in f.validation ==>
      (ValidateField(f, value, prims).0 <==> |Digits(PyStr(value, prims))| >= 10)
    ensures "pattern" in f.validation ==>
      (ValidateField(f, value, prims).0 <==> PatternHolds(f.validation, PyStr(value, prims), prims))
  {
  }

  /** Without a "pattern" rule an SSN is accepted exactly when it is three digits, a
      dash, two digits, a dash and four digits. */
  lemma SsnRule(f: TrackedField, value: Value, prims: Primitives)
    requires !IsBlank(value) && f.fieldType == "ssn" && "pattern" !in f.validation
    ensures ValidateField(f, value, prims).0 <==>
      exists area: string, group: string, serial: string ::
        PyStr(value, prims) == area + "-" + group + "-" + serial
        && |area| == 3 && |group| == 2 && |serial| == 4
        && AllDigits(area) && AllDigits(group) && AllDigits(serial)
  {
    SsnShapeIsGrammar(PyStr(value, prims));
  }

  lemma NumberRule(f: TrackedField, value: Value, prims: Primitives)
    requires !IsBlank(value) && f.fieldType in {"number", "currency"}
    ensures ValidateField(f, value, prims).0 <==>
      ToFloat(value, prims).Some?
      && AtLeast(ToFloat(value, prims).value, Bound(f.validation, "min_value"))
      && AtMost(ToFloat(value, prims).value, Bound(f.validation, "max_value"))
  {
  }

  lemma SelectRule(f: TrackedField, value: Value, prims: Primitives)
    requires !IsBlank(value) && f.fieldType == "select"
    ensures ValidateField(f, value, prims).0 <==>
      f.options.None? || f.options.value == []
      || exists i :: 0 <= i < |f.options.value| && PyEq(value, f.options.value[i].value)
  {
    if f.options.Some? {
      var vs := OptionValues(f.options.value);
      assert forall i :: 0 <= i < |f.options.value| ==> vs[i] == f.options.value[i].value;
    }
  }

  lemma CheckboxRule(f: TrackedField, value: Value, prims: Primitives)
    requires !IsBlank(value) && f.fieldType == "checkbox"
    ensures ValidateField(f, value, prims).0 <==> value.Bool?
  {
  }

  lemma DateRule(f: TrackedField, value: Value, prims: Primitives)
    requires !IsBlank(value) && f.fieldType == "date"
    ensures var s := PyStr(value, prims);
      ValidateField(f, value, prims).0 <==> if 'T' in s then prims.isoDateTime(s) else prims.isoDate(s)
  {
  }
}
