/** The suitability decision of the S3 guidelines store
    (ai-service/app/services/datasources/s3_suitability.py): the submission payload
    built from the collected client data, and the evaluation that sends it with the
    carrier's decision prompt to the language model and turns the reply into a
    decision dict.  The model call is an input: a function from the system prompt
    and the user message to the reply text, or to the exception it raised. */
module S3Suitability {
  import opened Values

  /** What the model call gives: the reply text, or an exception, told by whether it
      is a ValueError (which the parse handler catches) and by its message. */
  datatype ModelReply = Replied(text: string) | Raised(isValueError: bool, message: string)

  // ---------------------------------------------------------------------------
  // `_get` and `_parse_num`

  /** `client_data.get(k)`: a missing key reads as None. */
  function Lookup(clientData: seq<(string, Value)>, key: string): Value
  {
    GetOr(clientData, key, Null)
  }

  /** `_get(*keys)`: the value of the first key whose value is not None, else None. */
  function FirstPresent(clientData: seq<(string, Value)>, keys: seq<string>): Value
  {
    if keys == [] then Null
    else if Lookup(clientData, keys[0]) != Null then Lookup(clientData, keys[0])
    else FirstPresent(clientData, keys[1..])
  }

  /** `_get` finds None only when every key is missing or None, and otherwise the
      value of a key all of whose predecessors are missing or None. */
  lemma {:induction false} FirstPresentFinds(clientData: seq<(string, Value)>, keys: seq<string>)
    ensures var r := FirstPresent(clientData, keys);
      r == Null <==> forall i :: 0 <= i < |keys| ==> Lookup(clientData, keys[i]) == Null
    ensures var r := FirstPresent(clientData, keys);
      r != Null ==> exists i :: (0 <= i < |keys| && r == Lookup(clientData, keys[i]) &&
        forall j :: 0 <= j < i ==> Lookup(clientData, keys[j]) == Null)
  {
    if keys != [] && Lookup(clientData, keys[0]) == Null {
      FirstPresentFinds(clientData, keys[1..]);
      var r := FirstPresent(clientData, keys[1..]);
      assert forall i :: 1 <= i < |keys| ==> keys[i] == keys[1..][i - 1];
      if r != Null {
        var i :| 0 <= i < |keys[1..]| && r == Lookup(clientData, keys[1..][i]) &&
          forall j :: 0 <= j < i ==> Lookup(clientData, keys[1..][j]) == Null;
        assert r == Lookup(clientData, keys[i + 1]);
      }
    }
  }

  /** An earlier key that holds a value wins over every later one. */
  lemma {:induction false} FirstKeyWins(clientData: seq<(string, Value)>, keys: seq<string>, i: nat)
    requires i < |keys| && Lookup(clientData, keys[i]) != Null
    requires forall j :: 0 <= j < i ==> Lookup(clientData, keys[j]) == Null
    ensures FirstPresent(clientData, keys) == Lookup(clientData, keys[i])
  {
    if i > 0 {
      assert forall j :: 0 <= j < i - 1 ==> keys[1..][j] == keys[j + 1];
      FirstKeyWins(clientData, keys[1..], i - 1);
    }
  }

  /** `.replace("$", "").replace(",", "")` */
  function WithoutCurrency(s: string): (r: string)
    ensures '$' !in r && ',' !in r
    ensures |r| <= |s|
  {
    if s == [] then []
    else if s[0] == '$' || s[0] == ',' then WithoutCurrency(s[1..])
    else [s[0]] + WithoutCurrency(s[1..])
  }

  /** Removal works piece by piece: every other character stays, in order. */
  lemma {:induction false} WithoutCurrencyAppend(a: string, b: string)
    ensures WithoutCurrency(a + b) == WithoutCurrency(a) + WithoutCurrency(b)
  {
    if a != [] {
      assert (a + b)[0] == a[0] && (a + b)[1..] == a[1..] + b;
      WithoutCurrencyAppend(a[1..], b);
    } else {
      assert a + b == b;
    }
  }

  /** Text with no "$" or "," is left as it is. */
  lemma {:induction false} WithoutCurrencyKeeps(s: string)
    requires '$' !in s && ',' !in s
    ensures WithoutCurrency(s) == s
  {
    if s != [] {
      assert s == [s[0]] + s[1..];
      WithoutCurrencyKeeps(s[1..]);
    }
  }

  /** Removing the currency marks twice is removing them once. */
  lemma WithoutCurrencyIdempotent(s: string)
    ensures WithoutCurrency(WithoutCurrency(s)) == WithoutCurrency(s)
  {
    WithoutCurrencyKeeps(WithoutCurrency(s));
  }

  /** `_parse_num(val)`: None stays None; otherwise `float` of `str(val)` with the
      currency marks removed, None where that raises. */
  function ParseNum(v: Value, prims: Primitives): (r: Option<real>)
  {
    if v == Null then None else prims.parseFloat(WithoutCurrency(PyStr(v, prims)))
  }

  /** The parsed number of a dollar amount is the number of its digits alone. */
  lemma ParseNumIgnoresCurrency(a: string, b: string, prims: Primitives)
    requires '$' !in b && ',' !in b
    ensures ParseNum(Str("$" + a + "," + b), prims) == ParseNum(Str(a + b), prims)
    ensures ParseNum(Str(a + b), prims) == prims.parseFloat(WithoutCurrency(a) + b)
  {
    var dollars, comma := "$" + a, "$" + a + ",";
    WithoutCurrencyAppend("$", a);
    assert WithoutCurrency(dollars) == WithoutCurrency(a) by {
      assert WithoutCurrency("$") == [];
    }
    WithoutCurrencyAppend(dollars, ",");
    assert WithoutCurrency(comma) == WithoutCurrency(a) by {
      assert WithoutCurrency(",") == [];
    }
    WithoutCurrencyAppend(comma, b);
    WithoutCurrencyAppend(a, b);
    WithoutCurrencyKeeps(b);
  }

  /** `Num(x)` for a parsed number, None for none. */
  function NumOrNull(n: Option<real>): (v: Value)
    ensures v == Null <==> n.None?
    ensures n.Some? ==> v == Num(n.value)
  {
    match n
    case Some(x) => Num(x)
    case None => Null
  }

  // ---------------------------------------------------------------------------
  // `age`

  /** Python's `int()` of a float: the integer part, rounding toward zero. */
  function Truncate(n: real): (t: int)
    ensures n >= 0.0 ==> t as real <= n < t as real + 1.0
    ensures n < 0.0 ==> t as real - 1.0 < n <= t as real
  {
    if n >= 0.0 then n.Floor else -((-n).Floor)
  }

  /** `int(v)`; None where Python raises ValueError or TypeError. */
  function IntOf(v: Value, prims: Primitives): Option<int>
  {
    match v
    case Str(s) => prims.parseInt(s)
    case Num(n) => Some(Truncate(n))
    case Bool(b) => Some(if b then 1 else 0)
    case _ => None
  }

  /** `age = _get("age", "owner_age")` made an integer, or None when absent or not a number. */
  function Age(clientData: seq<(string, Value)>, prims: Primitives): (r: Value)
    ensures r == Null || (r.Num? && r.n == r.n.Floor as real)
    ensures FirstPresent(clientData, ["age", "owner_age"]) == Null ==> r == Null
  {
    var age := FirstPresent(clientData, ["age", "owner_age"]);
    if age == Null then Null
    else
      match IntOf(age, prims)
      case Some(k) => Num(k as real)
      case None => Null
  }

  /** A fractional age is cut to its whole years, toward zero. */
  lemma AgeTruncates(clientData: seq<(string, Value)>, n: real, prims: Primitives)
    requires Lookup(clientData, "age") == Num(n)
    ensures Age(clientData, prims).Num?
    ensures var a := Age(clientData, prims).n;
      a == a.Floor as real && (if n >= 0.0 then a <= n < a + 1.0 else a - 1.0 < n <= a)
  {
    FirstKeyWins(clientData, ["age", "owner_age"], 0);
  }

  /** An age under "age" wins over one under "owner_age". */
  lemma AgePrefersAge(clientData: seq<(string, Value)>, prims: Primitives)
    requires Lookup(clientData, "age") != Null
    ensures Age(clientData, prims) ==
      match IntOf(Lookup(clientData, "age"), prims)
      case Some(k) => Num(k as real)
      case None => Null
  {
    FirstKeyWins(clientData, ["age", "owner_age"], 0);
  }

  // ---------------------------------------------------------------------------
  // `_build_submission_payload`

  /** The submission payload sent to the decision prompt, field by field. */
  datatype Payload = Payload(
    dateOfBirth: Value, age: Value,
    totalPremium: Value, sourceOfFunds: Value,
    signedAtState: Value,
    annualHouseholdIncome: Value, annualHouseholdExpenses: Value,
    totalNetWorth: Value, liquidNetWorth: Value, hasEmergencyFunds: Value,
    expectedHoldYears: Value, nursingHomeStatus: Value, riskTolerance: Value,
    investmentObjective: Value, existingAnnuityValue: Value,
    isReplacement: Value, replacementPenaltyPct: Value, replacedCarrier: Value,
    replacedIssueDate: Value)

  /** The amounts of the payload: each a number or None. */
  predicate AmountsAreNumbers(p: Payload)
  {
    forall v :: (v in [p.totalPremium, p.annualHouseholdIncome, p.annualHouseholdExpenses,
                       p.totalNetWorth, p.liquidNetWorth, p.expectedHoldYears,
                       p.existingAnnuityValue, p.replacementPenaltyPct]) ==> v == Null || v.Num?
  }

  /** The amount found under the first of `keys` that holds a value. */
  function Amount(clientData: seq<(string, Value)>, keys: seq<string>, prims: Primitives): (v: Value)
    ensures v == Null || v.Num?
    ensures FirstPresent(clientData, keys) == Null ==> v == Null
  {
    NumOrNull(ParseNum(FirstPresent(clientData, keys), prims))
  }

  /** `_build_submission_payload`: every field is looked up under its keys in order,
      amounts are parsed as numbers and the age as an integer. */
  function BuildPayload(clientData: seq<(string, Value)>, prims: Primitives): (p: Payload)
    ensures AmountsAreNumbers(p)
    ensures p.age == Null || (p.age.Num? && p.age.n == p.age.n.Floor as real)
  {
    Payload(
      FirstPresent(clientData, ["owner_dob", "date_of_birth", "dob"]),
      Age(clientData, prims),
      Amount(clientData, ["total_premium", "premium_amount", "initial_premium"], prims),
      FirstPresent(clientData, ["source_of_funds", "funding_source"]),
      FirstPresent(clientData, ["signed_at_state", "state", "owner_state"]),
      Amount(clientData, ["annual_household_income", "annual_income", "income"], prims),
      Amount(clientData, ["annual_household_expenses", "annual_expenses"], prims),
      Amount(clientData, ["total_net_worth", "net_worth"], prims),
      Amount(clientData, ["liquid_net_worth", "liquid_assets"], prims),
      FirstPresent(clientData, ["has_emergency_funds"]),
      Amount(clientData, ["expected_hold_years", "time_horizon", "holding_period"], prims),
      FirstPresent(clientData, ["nursing_home_status"]),
      FirstPresent(clientData, ["risk_tolerance"]),
      FirstPresent(clientData, ["investment_objective"]),
      Amount(clientData, ["existing_annuity_value"], prims),
      FirstPresent(clientData, ["is_replacement"]),
      Amount(clientData, ["replacement_penalty_pct"], prims),
      FirstPresent(clientData, ["replaced_carrier"]),
      FirstPresent(clientData, ["replaced_issue_date"]))
  }

  /** The signing state falls back from "signed_at_state" to "state" to "owner_state". */
  lemma SigningStateFallback(clientData: seq<(string, Value)>, prims: Primitives)
    ensures Lookup(clientData, "signed_at_state") != Null ==>
      BuildPayload(clientData, prims).signedAtState == Lookup(clientData, "signed_at_state")
    ensures Lookup(clientData, "signed_at_state") == Null && Lookup(clientData, "state") != Null ==>
      BuildPayload(clientData, prims).signedAtState == Lookup(clientData, "state")
    ensures Lookup(clientData, "signed_at_state") == Null && Lookup(clientData, "state") == Null ==>
      BuildPayload(clientData, prims).signedAtState == Lookup(clientData, "owner_state")
  {
    var keys := ["signed_at_state", "state", "owner_state"];
    if Lookup(clientData, "signed_at_state") != Null {
      FirstKeyWins(clientData, keys, 0);
    } else if Lookup(clientData, "state") != Null {
      FirstKeyWins(clientData, keys, 1);
    } else if Lookup(clientData, "owner_state") != Null {
      FirstKeyWins(clientData, keys, 2);
    } else {
      FirstPresentFinds(clientData, keys);
    }
  }

  /** A premium given as a dollar amount under "premium_amount" is parsed without its marks
      when "total_premium" is absent. */
  lemma PremiumFallback(clientData: seq<(string, Value)>, s: string, prims: Primitives)
    requires Lookup(clientData, "total_premium") == Null
    requires Lookup(clientData, "premium_amount") == Str(s)
    ensures BuildPayload(clientData, prims).totalPremium == NumOrNull(prims.parseFloat(WithoutCurrency(s)))
  {
    FirstKeyWins(clientData, ["total_premium", "premium_amount", "initial_premium"], 1);
  }

  /** The payload as the dict that is sent: the owner is always an individual who is
      the annuitant. */
  function PayloadJson(p: Payload): (v: Value)
    ensures v.Obj? && |v.members| == 6
    ensures v.members[1] == ("owner", Obj([("isSameAsAnnuitant", Bool(true)), ("type", Str("individual"))]))
  {
    Obj([
      ("annuitant", Obj([("dateOfBirth", p.dateOfBirth), ("age", p.age)])),
      ("owner", Obj([("isSameAsAnnuitant", Bool(true)), ("type", Str("individual"))])),
      ("funding", Obj([("totalPremium", p.totalPremium), ("sourceOfFunds", p.sourceOfFunds)])),
      ("applicationSignatures", Obj([("signedAtState", p.signedAtState)])),
      ("suitabilityProfile", Obj([
        ("annualHouseholdIncome", p.annualHouseholdIncome),
        ("annualHouseholdExpenses", p.annualHouseholdExpenses),
        ("totalNetWorth", p.totalNetWorth),
        ("liquidNetWorth", p.liquidNetWorth),
        ("hasEmergencyFunds", p.hasEmergencyFunds),
        ("expectedHoldYears", p.expectedHoldYears),
        ("nursingHomeStatus", p.nursingHomeStatus),
        ("riskTolerance", p.riskTolerance),
        ("investmentObjective", p.investmentObjective),
        ("existingAnnuityValue", p.existingAnnuityValue)])),
      ("replacement", Obj([
        ("isReplacement", p.isReplacement),
        ("replacementPenaltyPct", p.replacementPenaltyPct),
        ("replacedCarrier", p.replacedCarrier),
        ("replacedIssueDate", p.replacedIssueDate)]))])
  }

  /** Whatever the client data, the owner section of the payload is the same. */
  lemma OwnerIsFixed(a: seq<(string, Value)>, b: seq<(string, Value)>, prims: Primitives)
    ensures Get(PayloadJson(BuildPayload(a, prims)).members, "owner") ==
            Get(PayloadJson(BuildPayload(b, prims)).members, "owner") ==
            Some(Obj([("isSameAsAnnuitant", Bool(true)), ("type", Str("individual"))]))
  {
    var ma := PayloadJson(BuildPayload(a, prims)).members;
    var mb := PayloadJson(BuildPayload(b, prims)).members;
    assert ma[0].0 == "annuitant" && ma[1..][0] == ma[1];
    assert mb[0].0 == "annuitant" && mb[1..][0] == mb[1];
  }

  // ---------------------------------------------------------------------------
  // `evaluate_suitability`

  /** The reply text with surrounding blanks and a Markdown code fence removed, or
      None where `index("\n")` raises: a reply that opens a fence on its only line. */
  method StripFences(text: string) returns (clean: Option<string>)
    ensures clean.None? <==> StartsWith(Strip(text), "```") && '\n' !in Strip(text)
    ensures clean.Some? ==> clean.value == Strip(Unfenced(Strip(text)))
    ensures clean.Some? && clean.value != [] ==> !IsSpace(clean.value[0]) && !IsSpace(clean.value[|clean.value| - 1])
  {
    var cleanText := Strip(text);
    if StartsWith(cleanText, "```") {
      match IndexOf(cleanText, '\n')
      case None =>
        return None;
      case Some(firstNewline) =>
        cleanText := cleanText[firstNewline + 1..];
    }
    if EndsWith(cleanText, "```") {
      cleanText := cleanText[..|cleanText| - 3];
    }
    cleanText := Strip(cleanText);
    clean := Some(cleanText);
  }

  /** What is left of stripped text once an opening fence line and a closing fence are cut. */
  function Unfenced(s: string): (r: string)
    requires !(StartsWith(s, "```") && '\n' !in s)
    ensures IsSubstring(r, s)
  {
    var body := if StartsWith(s, "```") then s[IndexOf(s, '\n').value + 1..] else s;
    assert s[|s| - |body|..] == body;
    if EndsWith(body, "```") then
      assert s[|s| - |body|..|s| - 3] == body[..|body| - 3];
      body[..|body| - 3]
    else
      assert s[|s| - |body|..|s|] == body;
      body
  }

  /** A JSON body in a fenced code block, with any info string, comes out as the body. */
  lemma FencedReply(info: string, body: string)
    requires '\n' !in info
    ensures var text := "```" + info + "\n" + body + "\n```";
      !(StartsWith(Strip(text), "```") && '\n' !in Strip(text)) &&
      Strip(Unfenced(Strip(text))) == Strip(body)
  {
    var text := "```" + info + "\n" + body + "\n```";
    assert text[|text| - 1] == '`' && text[0] == '`';
    StripAlreadyStripped(text);
    FencedBody(info, body, text);
    StripDropsTrailingSpace(body, '\n');
  }

  /** The fence lines of a fenced block are cut and the body is left with its newline. */
  lemma FencedBody(info: string, body: string, text: string)
    requires '\n' !in info && text == "```" + info + "\n" + body + "\n```"
    ensures StartsWith(text, "```") && '\n' in text && Unfenced(text) == body + "\n"
  {
    assert text[..3] == "```";
    assert text[3 + |info|] == '\n' && text[..3 + |info|] == "```" + info;
    IndexOfFirst(text, '\n', 3 + |info|);
    var rest := text[3 + |info| + 1..];
    assert rest == body + "\n```";
    assert rest[|rest| - 3..] == "```" && rest[..|rest| - 3] == body + "\n";
  }

  /** A reply that neither opens nor closes a fence is only stripped. */
  lemma UnfencedReply(text: string)
    requires !StartsWith(Strip(text), "```") && !EndsWith(Strip(text), "```")
    ensures Strip(Unfenced(Strip(text))) == Strip(text)
  {
    StripAlreadyStripped(Strip(text));
  }

  /** `guidelines.get(key, "")` */
  function Meta(guidelines: seq<(string, Value)>, key: string): Value
  {
    GetOr(guidelines, key, Str(""))
  }

  /** The "pending_manual_review" dict; `withIds` adds the carrier and product ids. */
  function Pending(guidelines: seq<(string, Value)>, error: string, withIds: bool): (v: Value)
    ensures v.Obj? && |v.members| >= 4 && v.members[0] == ("decision", Str("pending_manual_review"))
  {
    Obj([("decision", Str("pending_manual_review")), ("error", Str(error)),
         ("carrier", Meta(guidelines, "carrier_name")), ("product", Meta(guidelines, "product_name"))] +
        (if withIds then [("carrier_id", Meta(guidelines, "carrier_id")), ("product_id", Meta(guidelines, "product_id"))]
         else []))
  }

  /** The user message: the product parameters and the payload, as JSON. */
  function UserMessage(guidelines: seq<(string, Value)>, clientData: seq<(string, Value)>, prims: Primitives): string
  {
    prims.dumpJson(Obj([("productParameters", GetOr(guidelines, "product_parameters", Obj([]))),
                        ("submissionPayload", PayloadJson(BuildPayload(clientData, prims)))]))
  }

  /** The four metadata keys of a decision. */
  const MetaKeys: set<string> := {"carrier", "product", "carrier_id", "product_id"}

  /** `guidelines.get("suitability_decision_prompt", "")` */
  function DecisionPrompt(guidelines: seq<(string, Value)>): Value
  {
    GetOr(guidelines, "suitability_decision_prompt", Str(""))
  }

  /** The message of the TypeError `result["carrier"] = …` raises on a JSON reply that
      is not a dict. */
  function AssignmentError(v: Value): (m: string)
    requires !v.Obj?
    ensures v.Arr? <==> m == "list indices must be integers or slices, not str"
  {
    match v
    case Arr(_) => "list indices must be integers or slices, not str"
    case Null => "'NoneType' object does not support item assignment"
    case Bool(_) => "'bool' object does not support item assignment"
    case Num(n) => "'" + (if n.Floor as real == n then "int" else "float") + "' object does not support item assignment"
    case Str(_) => "'str' object does not support item assignment"
  }

  /** The handler that formats an exception: ValueError and its subclass
      JSONDecodeError go to the parse handler, everything else to the general one. */
  function Handled(guidelines: seq<(string, Value)>, isValueError: bool, message: string): Value
  {
    Pending(guidelines, (if isValueError then "Failed to parse suitability evaluation: "
                         else "Suitability evaluation failed: ") + message, true)
  }

  /** What the decision is once the model has replied: an exception from the call, a
      reply that opens a fence on its only line (`index` raises "substring not found"),
      a reply that is not JSON and a reply that is JSON but not a dict each leave the
      decision to manual review with the exception's message; a dict is returned with
      the carrier and product added and every other key as the model gave it. */
  ghost predicate Decided(result: Value, guidelines: seq<(string, Value)>, reply: ModelReply, prims: Primitives)
  {
    match reply
    case Raised(isValueError, message) => result == Handled(guidelines, isValueError, message)
    case Replied(text) =>
      if StartsWith(Strip(text), "```") && '\n' !in Strip(text) then
        result == Handled(guidelines, true, "substring not found")
      else
        var clean := Strip(Unfenced(Strip(text)));
        match prims.parseJson(clean)
        case None => result == Handled(guidelines, true, prims.jsonErrorText(clean))
        case Some(parsed) =>
          if !parsed.Obj? then result == Handled(guidelines, false, AssignmentError(parsed))
          else
            result.Obj? &&
            Get(result.members, "carrier") == Some(Meta(guidelines, "carrier_name")) &&
            Get(result.members, "product") == Some(Meta(guidelines, "product_name")) &&
            Get(result.members, "carrier_id") == Some(Meta(guidelines, "carrier_id")) &&
            Get(result.members, "product_id") == Some(Meta(guidelines, "product_id")) &&
            forall k :: k !in MetaKeys ==> Get(result.members, k) == Get(parsed.members, k)
  }

  /** `S3SuitabilityStore.evaluate_suitability`: without a decision prompt the model is
      not consulted and the decision is left to manual review; otherwise the decision
      follows from the model's reply to the prompt and the user message. */
  method Evaluate(guidelines: seq<(string, Value)>, clientData: seq<(string, Value)>,
                  llm: (Value, string) -> ModelReply, prims: Primitives)
    returns (result: Value)
    ensures !Truthy(DecisionPrompt(guidelines)) ==>
      result == Pending(guidelines, "No suitability decision prompt configured for this carrier.", false)
    ensures Truthy(DecisionPrompt(guidelines)) ==>
      Decided(result, guidelines, llm(DecisionPrompt(guidelines), UserMessage(guidelines, clientData, prims)), prims)
  {
    var decisionPrompt := DecisionPrompt(guidelines);
    if !Truthy(decisionPrompt) {
      return Pending(guidelines, "No suitability decision prompt configured for this carrier.", false);
    }
    var userMessage := UserMessage(guidelines, clientData, prims);
    result := Consult(guidelines, decisionPrompt, userMessage, llm, prims);
  }

  /** The `try` block of `evaluate_suitability`: the model call and the reading of its reply. */
  method Consult(guidelines: seq<(string, Value)>, decisionPrompt: Value, userMessage: string,
                 llm: (Value, string) -> ModelReply, prims: Primitives)
    returns (result: Value)
    ensures Decided(result, guidelines, llm(decisionPrompt, userMessage), prims)
  {
    var response := llm(decisionPrompt, userMessage);
    if response.Raised? {
      return Handled(guidelines, response.isValueError, response.message);
    }
    var cleanText := StripFences(response.text);
    if cleanText.None? {
      return Handled(guidelines, true, "substring not found");
    }
    var parsed := prims.parseJson(cleanText.value);
    if parsed.None? {
      return Handled(guidelines, true, prims.jsonErrorText(cleanText.value));
    }
    if !parsed.value.Obj? {
      return Handled(guidelines, false, AssignmentError(parsed.value));
    }
    result := AddMetadata(parsed.value.members, guidelines);
  }

  /** `result["carrier"] = …` through `result["product_id"] = …` */
  method AddMetadata(reply: seq<(string, Value)>, guidelines: seq<(string, Value)>) returns (result: Value)
    ensures result.Obj?
    ensures Get(result.members, "carrier") == Some(Meta(guidelines, "carrier_name"))
    ensures Get(result.members, "product") == Some(Meta(guidelines, "product_name"))
    ensures Get(result.members, "carrier_id") == Some(Meta(guidelines, "carrier_id"))
    ensures Get(result.members, "product_id") == Some(Meta(guidelines, "product_id"))
    ensures forall k :: k !in MetaKeys ==> Get(result.members, k) == Get(reply, k)
  {
    var r := reply;
    ghost var r0 := r;
    r := Put(r, "carrier", Meta(guidelines, "carrier_name"));
    ghost var r1 := r;
    r := Put(r, "product", Meta(guidelines, "product_name"));
    ghost var r2 := r;
    r := Put(r, "carrier_id", Meta(guidelines, "carrier_id"));
    ghost var r3 := r;
    r := Put(r, "product_id", Meta(guidelines, "product_id"));
    forall k
      ensures Get(r, k) == if k == "product_id" then Some(Meta(guidelines, "product_id"))
        else if k == "carrier_id" then Some(Meta(guidelines, "carrier_id"))
        else if k == "product" then Some(Meta(guidelines, "product_name"))
        else if k == "carrier" then Some(Meta(guidelines, "carrier_name"))
        else Get(reply, k)
    {
      GetPut(r0, "carrier", Meta(guidelines, "carrier_name"), k);
      GetPut(r1, "product", Meta(guidelines, "product_name"), k);
      GetPut(r2, "carrier_id", Meta(guidelines, "carrier_id"), k);
      GetPut(r3, "product_id", Meta(guidelines, "product_id"), k);
    }
    result := Obj(r);
  }
}
