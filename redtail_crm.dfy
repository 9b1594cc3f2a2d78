/** The Redtail CRM data source (ai-service/app/services/datasources/redtail_crm.py):
    the text clean-ups it applies to CRM values, the mapping of a contact and its
    addresses, phones and emails onto application fields, and the paged listing of
    individual clients.  What the Redtail API returns is an input: the responses of
    the four concurrent fetches of `query`, and the response for each page of
    `list_clients`, each either a dict or the exception the call raised. */
module RedtailCrm {
  import opened Values

  // ---------------------------------------------------------------------------
  // `_strip_html`

  /** The length of the tag `<[^>]+>` that starts `s`, or 0 when none does. */
  function TagLength(s: string): (n: nat)
    requires s != [] && s[0] == '<'
    ensures n == 0 || (3 <= n <= |s| && s[n - 1] == '>' && '>' !in s[1..n - 1])
  {
    match IndexOf(s[1..], '>')
    case None => 0
    case Some(k) => if k == 0 then 0 else (assert s[1..][..k] == s[1..k + 1]; k + 2)
  }

  /** `re.sub(r"<[^>]+>", " ", s)`: each tag becomes one space. */
  function RemoveTags(s: string): (r: string)
    ensures '<' !in s ==> r == s
  {
    if s == [] then []
    else if s[0] == '<' && TagLength(s) > 0 then " " + RemoveTags(s[TagLength(s)..])
    else [s[0]] + RemoveTags(s[1..])
  }

  /** `s` without its leading whitespace. */
  function DropSpaces(s: string): (r: string)
    ensures |r| <= |s|
    ensures s != [] && IsSpace(s[0]) ==> |r| < |s|
    ensures r != [] ==> !IsSpace(r[0])
  {
    if s != [] && IsSpace(s[0]) then DropSpaces(s[1..]) else s
  }

  /** The only whitespace is the plain space, and no two whitespace characters are
      adjacent. */
  predicate SingleSpaced(s: string)
  {
    (forall i :: 0 <= i < |s| && IsSpace(s[i]) ==> s[i] == ' ') &&
    forall i :: 0 <= i < |s| - 1 ==> !(IsSpace(s[i]) && IsSpace(s[i + 1]))
  }

  /** `re.sub(r"\s+", " ", s)`: each run of whitespace becomes one space. */
  function CollapseSpaces(s: string): (r: string)
    ensures r == [] <==> s == []
    ensures r != [] ==> (IsSpace(r[0]) <==> IsSpace(s[0]))
    ensures SingleSpaced(r)
    decreases |s|
  {
    if s == [] then []
    else if IsSpace(s[0]) then
      var rest := CollapseSpaces(DropSpaces(s));
      assert rest != [] ==> !IsSpace(rest[0]);
      " " + rest
    else [s[0]] + CollapseSpaces(s[1..])
  }

  /** Cleaned text: single-spaced, with no whitespace at either end. */
  predicate Clean(s: string)
  {
    SingleSpaced(s) && (s != [] ==> !IsSpace(s[0]) && !IsSpace(s[|s| - 1]))
  }

  lemma SingleSpacedSlice(s: string, i: nat, j: nat)
    requires SingleSpaced(s) && i <= j <= |s|
    ensures SingleSpaced(s[i..j])
  {
    assert forall k :: 0 <= k < j - i ==> s[i..j][k] == s[i + k];
  }

  /** `_strip_html`: a blank value gives "", and a string loses its tags, has its
      entities decoded (`html.unescape`, an input here) and its whitespace collapsed
      and trimmed; anything else makes `re.sub` raise. */
  function StripHtml(text: Value, unescape: string -> string): (r: Result<string>)
    ensures !Truthy(text) ==> r == Ok("")
    ensures Truthy(text) ==> (r.Ok? <==> text.Str?)
    ensures r.Failed? ==> r.error == "TypeError"
    ensures r.Ok? ==> Clean(r.value)
  {
    if !Truthy(text) then Ok("")
    else if !text.Str? then Failed("TypeError")
    else
      var collapsed := CollapseSpaces(unescape(RemoveTags(text.s)));
      var r := Strip(collapsed);
      ghost var i, j :| 0 <= i <= j <= |collapsed| && collapsed[i..j] == r;
      SingleSpacedSlice(collapsed, i, j);
      Ok(r)
  }

  lemma {:induction false} CollapseClean(s: string)
    requires SingleSpaced(s)
    ensures CollapseSpaces(s) == s
  {
    if s != [] {
      SingleSpacedSlice(s, 1, |s|);
      CollapseClean(s[1..]);
      if IsSpace(s[0]) {
        assert s[1..] == [] || !IsSpace(s[1..][0]);
        assert DropSpaces(s) == s[1..];
      }
    }
  }

  /** Text that is already clean, has no tag and no entity comes back unchanged. */
  lemma CleanTextUnchanged(s: string, unescape: string -> string)
    requires s != [] && Clean(s) && '<' !in s && unescape(s) == s
    ensures StripHtml(Str(s), unescape) == Ok(s)
  {
    CollapseClean(s);
  }

  // ---------------------------------------------------------------------------
  // `_normalize_gender`

  /** `_normalize_gender`: "" for a blank value; the trimmed, lower-cased text,
      with "m" and "f" spelled out; a non-string makes `.strip()` raise. */
  function NormalizeGender(value: Value): (r: Result<string>)
    ensures !Truthy(value) ==> r == Ok("")
    ensures Truthy(value) ==> (r.Ok? <==> value.Str?)
    ensures r.Failed? ==> r.error == "AttributeError"
  {
    if !Truthy(value) then Ok("")
    else if !value.Str? then Failed("AttributeError")
    else Ok(GenderOf(Lower(Strip(value.s))))
  }

  /** The spelled-out gender of a trimmed, lower-cased text. */
  function GenderOf(v: string): string
  {
    if v == "male" || v == "m" then "male"
    else if v == "female" || v == "f" then "female"
    else v
  }

  /** The spellings of each gender: "male" or "m" and "female" or "f", in any case
      and with any surrounding whitespace; any other text is kept trimmed and
      lower-cased. */
  lemma GenderSpellings(s: string)
    requires s != []
    ensures var r := NormalizeGender(Str(s)).value; var v := Lower(Strip(s));
      (r == "male" <==> v == "male" || v == "m") &&
      (r == "female" <==> v == "female" || v == "f") &&
      (v !in ["male", "m", "female", "f"] ==> r == v)
  {
  }

  lemma LowerTwice(s: string)
    ensures Lower(Lower(s)) == Lower(s)
  {
  }

  lemma {:induction false} StripLower(s: string)
    ensures Strip(Lower(s)) == Lower(Strip(s))
    decreases |s|
  {
    if s != [] {
      var l := Lower(s);
      LowerCharSpace(s[0]);
      LowerCharSpace(s[|s| - 1]);
      StripStep(s);
      StripStep(l);
      if IsSpace(s[0]) {
        assert Lower(s[1..]) == l[1..];
        StripLower(s[1..]);
      } else if IsSpace(s[|s| - 1]) {
        assert Lower(s[..|s| - 1]) == l[..|l| - 1];
        StripLower(s[..|s| - 1]);
      }
    }
  }

  /** Two texts that trim and lower-case alike normalise alike. */
  lemma SameGender(a: string, b: string)
    requires Lower(Strip(a)) == Lower(Strip(b))
    ensures NormalizeGender(Str(a)) == NormalizeGender(Str(b))
  {
    var v := Lower(Strip(a));
    if a == [] || b == [] {
      assert Lower(Strip([])) == [];
      assert v == [] && GenderOf(v) == [];
    }
  }

  /** The case of a gender's spelling does not matter. */
  lemma GenderIgnoresCase(s: string)
    ensures NormalizeGender(Str(Lower(s))) == NormalizeGender(Str(s))
  {
    StripLower(s);
    LowerTwice(Strip(s));
    SameGender(Lower(s), s);
  }

  /** Surrounding spaces around a gender's spelling do not matter. */
  lemma GenderIgnoresPadding(s: string)
    ensures NormalizeGender(Str(" " + s + " ")) == NormalizeGender(Str(s))
  {
    var padded := " " + s + " ";
    assert padded[1..] == s + " ";
    StripDropsTrailingSpace(s, ' ');
    assert Strip(padded) == Strip(s);
    if s == [] {
      assert Strip(padded) == [];
    }
    SameGender(padded, s);
  }

  lemma SpelledOut(w: string)
    requires w == "male" || w == "female"
    ensures NormalizeGender(Str(w)) == Ok(w)
  {
    StripAlreadyStripped(w);
    LowerIdentity(w);
  }

  /** A text without upper-case letters is its own lower case. */
  lemma LowerIdentity(s: string)
    requires forall i :: 0 <= i < |s| ==> !('A' <= s[i] <= 'Z')
    ensures Lower(s) == s
  {
  }

  /** A trimmed, lower-cased text that is no spelling of a gender normalises to itself. */
  lemma KeptForm(t: string, v: string)
    requires t != [] && !IsSpace(t[0]) && !IsSpace(t[|t| - 1]) && v == Lower(t)
    requires GenderOf(v) == v
    ensures NormalizeGender(Str(v)) == Ok(v)
  {
    assert !IsSpace(v[0]) && !IsSpace(v[|v| - 1]);
    StripAlreadyStripped(v);
    LowerTwice(t);
  }

  /** A normalised gender is its own normal form. */
  lemma GenderIsIdempotent(value: Value)
    requires NormalizeGender(value).Ok?
    ensures var g := NormalizeGender(value).value; NormalizeGender(Str(g)) == Ok(g)
  {
    if value.Str? && value.s != [] {
      var v := Lower(Strip(value.s));
      var g := GenderOf(v);
      if g == "male" || g == "female" {
        SpelledOut(g);
      } else if v != [] {
        KeptForm(Strip(value.s), v);
      }
    }
  }

  // ---------------------------------------------------------------------------
  // The field mapping of `RedtailCRM.query`

  /** `d.get(key)` */
  function Field(d: seq<(string, Value)>, key: string): Value
  {
    GetOr(d, key, Null)
  }

  /** `text.split("T")[0]` */
  function UpToT(text: string): (r: string)
    ensures 'T' !in r && StartsWith(text, r)
    ensures 'T' !in text ==> r == text
    ensures |r| < |text| ==> text[|r|] == 'T'
  {
    match IndexOf(text, 'T')
    case None => text
    case Some(k) => text[..k]
  }

  /** The date of birth `query` maps: the text of `dob` up to the first "T", unless
      that is empty or "None". */
  function BirthDate(dob: Value, prims: Primitives): Option<string>
  {
    var d := UpToT(PyStr(dob, prims));
    if Truthy(dob) && d != "" && d != "None" then Some(d) else None
  }

  /** `key` of `fields` holds `src[srcKey]` exactly when that value is truthy. */
  predicate Copied(fields: map<string, Value>, key: string, src: seq<(string, Value)>, srcKey: string)
  {
    (key in fields <==> Truthy(Field(src, srcKey))) &&
    (key in fields ==> fields[key] == Field(src, srcKey))
  }

  /** The contact's values that `.strip()` and `.lower()` are applied to are strings. */
  predicate ContactReadable(c: seq<(string, Value)>)
  {
    (!Truthy(Field(c, "gender")) || Field(c, "gender").Str?) &&
    (!Truthy(Field(c, "marital_status")) || Field(c, "marital_status").Str?)
  }

  const ContactKeys: set<string> := {"owner_first_name", "owner_last_name", "owner_date_of_birth",
                                     "owner_ssn", "owner_gender", "owner_marital_status"}

  const IdentityKeys: set<string> := {"owner_first_name", "owner_last_name", "owner_date_of_birth", "owner_ssn"}

  /** Names and tax id copied when truthy, the date of birth cut at "T" unless that
      leaves nothing or "None". */
  predicate IdentityMapped(fields: map<string, Value>, c: seq<(string, Value)>, prims: Primitives)
  {
    Copied(fields, "owner_first_name", c, "first_name") &&
    Copied(fields, "owner_last_name", c, "last_name") &&
    Copied(fields, "owner_ssn", c, "tax_id") &&
    ("owner_date_of_birth" in fields <==> BirthDate(Field(c, "dob"), prims).Some?) &&
    ("owner_date_of_birth" in fields ==>
      fields["owner_date_of_birth"] == Str(BirthDate(Field(c, "dob"), prims).value))
  }

  /** The first part of the contact section of `query`: names and tax id copied when
      truthy, the date of birth cut at "T". */
  method IdentityFields(c: seq<(string, Value)>, prims: Primitives) returns (fields: map<string, Value>)
    ensures fields.Keys <= IdentityKeys && forall k :: k in fields ==> !IsBlank(fields[k])
    ensures IdentityMapped(fields, c, prims)
  {
    fields := map[];
    if Truthy(Field(c, "first_name")) {
      fields := fields["owner_first_name" := Field(c, "first_name")];
    }
    assert Copied(fields, "owner_first_name", c, "first_name");
    if Truthy(Field(c, "last_name")) {
      fields := fields["owner_last_name" := Field(c, "last_name")];
    }
    assert Copied(fields, "owner_last_name", c, "last_name");
    assert fields.Keys <= IdentityKeys && forall k :: k in fields ==> !IsBlank(fields[k]);
    if Truthy(Field(c, "dob")) {
      var dob := UpToT(PyStr(Field(c, "dob"), prims));
      if dob != "" && dob != "None" {
        fields := fields["owner_date_of_birth" := Str(dob)];
      }
    }
    assert "owner_date_of_birth" in fields <==> BirthDate(Field(c, "dob"), prims).Some?;
    assert fields.Keys <= IdentityKeys && forall k :: k in fields ==> !IsBlank(fields[k]);
    if Truthy(Field(c, "tax_id")) {
      fields := fields["owner_ssn" := Field(c, "tax_id")];
    }
  }

  /** The gender and marital status keys are not identity keys (they differ at the
      seventh character). */
  lemma TraitKeysFresh()
    ensures forall k :: k in IdentityKeys ==> k != "owner_gender" && k != "owner_marital_status"
    ensures "owner_gender" != "owner_marital_status"
  {
    assert "owner_gender"[6] == 'g' && "owner_marital_status"[6] == 'm';
    forall k | k in IdentityKeys ensures |k| > 6 && k[6] != 'g' && k[6] != 'm' {
    }
  }

  /** The gender normalised and kept when not empty, the marital status lower-cased
      and kept when truthy. */
  predicate TraitsMapped(fields: map<string, Value>, c: seq<(string, Value)>)
    requires ContactReadable(c)
  {
    ("owner_gender" in fields <==> NormalizeGender(Field(c, "gender")).value != "") &&
    ("owner_gender" in fields ==> fields["owner_gender"] == Str(NormalizeGender(Field(c, "gender")).value)) &&
    ("owner_marital_status" in fields <==> Truthy(Field(c, "marital_status"))) &&
    ("owner_marital_status" in fields ==>
      fields["owner_marital_status"] == Str(Lower(Field(c, "marital_status").s)))
  }

  const TraitKeys: set<string> := {"owner_gender", "owner_marital_status"}

  /** The second part of the contact section of `query`: the gender and the marital
      status, or the AttributeError of a value that is not a string. */
  method TraitFields(c: seq<(string, Value)>) returns (r: Result<map<string, Value>>)
    ensures r.Failed? <==> !ContactReadable(c)
    ensures r.Failed? ==> r.error == "AttributeError"
    ensures r.Ok? ==> r.value.Keys <= TraitKeys && forall k :: k in r.value ==> !IsBlank(r.value[k])
    ensures r.Ok? ==> TraitsMapped(r.value, c)
  {
    var fields := map[];
    var gender := NormalizeGender(Field(c, "gender"));
    if gender.Failed? {
      return Failed(gender.error);
    }
    if gender.value != "" {
      fields := fields["owner_gender" := Str(gender.value)];
    }
    var marital := Field(c, "marital_status");
    if Truthy(marital) {
      if !marital.Str? {
        return Failed("AttributeError");
      }
      fields := fields["owner_marital_status" := Str(Lower(marital.s))];
    }
    return Ok(fields);
  }

  /** Joining the identity part and the trait part keeps what each says. */
  lemma JoinedParts(id: map<string, Value>, traits: map<string, Value>, c: seq<(string, Value)>, prims: Primitives)
    requires id.Keys <= IdentityKeys && IdentityMapped(id, c, prims)
    requires ContactReadable(c) && traits.Keys <= TraitKeys && TraitsMapped(traits, c)
    ensures IdentityMapped(id + traits, c, prims) && TraitsMapped(id + traits, c)
  {
    TraitKeysFresh();
    assert forall k :: k in IdentityKeys ==> k !in traits;
  }

  /** The contact section of `query`: the identity fields, then the gender
      normalised and the marital status lower-cased. */
  method ContactFields(c: seq<(string, Value)>, prims: Primitives) returns (r: Result<map<string, Value>>)
    ensures r.Failed? <==> !ContactReadable(c)
    ensures r.Failed? ==> r.error == "AttributeError"
    ensures r.Ok? ==> r.value.Keys <= ContactKeys && forall k :: k in r.value ==> !IsBlank(r.value[k])
    ensures r.Ok? ==> IdentityMapped(r.value, c, prims) && TraitsMapped(r.value, c)
  {
    var id := IdentityFields(c, prims);
    var traits := TraitFields(c);
    if traits.Failed? {
      return Failed(traits.error);
    }
    JoinedParts(id, traits.value, c, prims);
    return Ok(id + traits.value);
  }

  /** `xs[0]` of a truthy value: a list's first item, a string's first character; a
      dict has no key 0 and other values are not subscriptable. */
  function FirstItem(v: Value): Result<Value>
    requires Truthy(v)
  {
    match v
    case Arr(xs) => Ok(xs[0])
    case Str(s) => Ok(Str([s[0]]))
    case Obj(_) => Failed("KeyError")
    case _ => Failed("TypeError")
  }

  /** The section for `listKey` of a fetched response can be read: the fetch raised
      (and is skipped), the list is empty, or its first item is a dict. */
  predicate ListReadable(data: Result<seq<(string, Value)>>, listKey: string)
  {
    data.Failed? ||
    var xs := GetOr(data.value, listKey, Arr([]));
    !Truthy(xs) || (xs.Arr? && xs.items[0].Obj?)
  }

  /** The first item of the fetched list, when there is one to map. */
  function FirstEntry(data: Result<seq<(string, Value)>>, listKey: string): Option<seq<(string, Value)>>
  {
    if data.Failed? then None
    else
      var xs := GetOr(data.value, listKey, Arr([]));
      if Truthy(xs) && xs.Arr? && xs.items[0].Obj? then Some(xs.items[0].members) else None
  }

  /** Reads the first item of a fetched list, or says which exception that raises. */
  method FirstOf(data: Result<seq<(string, Value)>>, listKey: string)
    returns (entry: Result<Option<seq<(string, Value)>>>)
    ensures entry.Failed? <==> !ListReadable(data, listKey)
    ensures entry.Ok? ==> entry.value == FirstEntry(data, listKey)
  {
    if data.Failed? {
      return Ok(None);
    }
    var xs := GetOr(data.value, listKey, Arr([]));
    if !Truthy(xs) {
      return Ok(None);
    }
    var first := FirstItem(xs);
    if first.Failed? {
      return Failed(first.error);
    }
    if !first.value.Obj? {
      return Failed("AttributeError");
    }
    return Ok(Some(first.value.members));
  }

  const AddressKeys: set<string> := {"owner_address_street", "owner_address_city",
                                     "owner_address_state", "owner_address_zip"}

  /** `key` of `out` holds the section's value `src[srcKey]` when that is truthy, and is
      as it was in `fields` otherwise. */
  predicate Located(out: map<string, Value>, fields: map<string, Value>, key: string,
                    src: seq<(string, Value)>, srcKey: string)
  {
    if Truthy(Field(src, srcKey)) then key in out && out[key] == Field(src, srcKey)
    else (key in out <==> key in fields) && (key in fields ==> out[key] == fields[key])
  }

  /** The address section of `query`: the first address's truthy street, city,
      state and zip; a failed fetch or no address leaves the fields as they were. */
  method AddressFields(fields: map<string, Value>, addrData: Result<seq<(string, Value)>>)
    returns (r: Result<map<string, Value>>)
    ensures r.Failed? <==> !ListReadable(addrData, "addresses")
    ensures r.Ok? ==> r.value.Keys <= fields.Keys + AddressKeys
    ensures r.Ok? ==> forall k :: k in fields && k !in AddressKeys ==> k in r.value && r.value[k] == fields[k]
    ensures r.Ok? && FirstEntry(addrData, "addresses").None? ==> r.value == fields
    ensures r.Ok? && FirstEntry(addrData, "addresses").Some? ==>
      var a := FirstEntry(addrData, "addresses").value;
      Located(r.value, fields, "owner_address_street", a, "street_address") &&
      Located(r.value, fields, "owner_address_city", a, "city") &&
      Located(r.value, fields, "owner_address_state", a, "state") &&
      Located(r.value, fields, "owner_address_zip", a, "zip")
    ensures r.Ok? ==> forall k :: k in AddressKeys && k in r.value && k !in fields ==> !IsBlank(r.value[k])
  {
    var entry := FirstOf(addrData, "addresses");
    if entry.Failed? {
      return Failed(entry.error);
    }
    var out := fields;
    if entry.value.Some? {
      var a := entry.value.value;
      if Truthy(Field(a, "street_address")) {
        out := out["owner_address_street" := Field(a, "street_address")];
      }
      if Truthy(Field(a, "city")) {
        out := out["owner_address_city" := Field(a, "city")];
      }
      if Truthy(Field(a, "state")) {
        out := out["owner_address_state" := Field(a, "state")];
      }
      if Truthy(Field(a, "zip")) {
        out := out["owner_address_zip" := Field(a, "zip")];
      }
    }
    return Ok(out);
  }

  /** The phone and email sections of `query`: `fieldKey` takes the first entry's
      `itemKey`, or "" when it has none. */
  method FirstEntryField(fields: map<string, Value>, data: Result<seq<(string, Value)>>, listKey: string,
                         itemKey: string, fieldKey: string)
    returns (r: Result<map<string, Value>>)
    ensures r.Failed? <==> !ListReadable(data, listKey)
    ensures r.Ok? && FirstEntry(data, listKey).None? ==> r.value == fields
    ensures r.Ok? && FirstEntry(data, listKey).Some? ==>
      r.value == fields[fieldKey := GetOr(FirstEntry(data, listKey).value, itemKey, Str(""))]
  {
    var entry := FirstOf(data, listKey);
    if entry.Failed? {
      return Failed(entry.error);
    }
    if entry.value.None? {
      return Ok(fields);
    }
    return Ok(fields[fieldKey := GetOr(entry.value.value, itemKey, Str(""))]);
  }

  /** Which owner field each annuitant field copies. */
  const AnnuitantKeys: seq<(string, string)> := [
    ("owner_first_name", "annuitant_first_name"),
    ("owner_last_name", "annuitant_last_name"),
    ("owner_date_of_birth", "annuitant_date_of_birth"),
    ("owner_ssn", "annuitant_ssn"),
    ("owner_gender", "annuitant_gender")]

  const AnnuitantFields: set<string> := {"annuitant_first_name", "annuitant_last_name",
                                         "annuitant_date_of_birth", "annuitant_ssn", "annuitant_gender"}

  /** The loop over `annuitant_map`: every mapped owner field is copied to its
      annuitant field; nothing else changes. */
  method MirrorOwner(fields: map<string, Value>) returns (out: map<string, Value>)
    ensures forall j :: 0 <= j < |AnnuitantKeys| && AnnuitantKeys[j].0 in fields ==>
      AnnuitantKeys[j].1 in out && out[AnnuitantKeys[j].1] == fields[AnnuitantKeys[j].0]
    ensures forall j :: 0 <= j < |AnnuitantKeys| && AnnuitantKeys[j].0 !in fields ==>
      (AnnuitantKeys[j].1 in out <==> AnnuitantKeys[j].1 in fields) &&
      (AnnuitantKeys[j].1 in fields ==> out[AnnuitantKeys[j].1] == fields[AnnuitantKeys[j].1])
    ensures forall k :: k in fields && k !in AnnuitantFields ==> k in out && out[k] == fields[k]
    ensures out.Keys <= fields.Keys + AnnuitantFields
  {
    out := fields;
    assert forall j :: 0 <= j < |AnnuitantKeys| ==>
      AnnuitantKeys[j].1 in AnnuitantFields && AnnuitantKeys[j].0 !in AnnuitantFields;
    for i := 0 to |AnnuitantKeys|
      invariant forall k :: k in fields && k !in AnnuitantFields ==> k in out && out[k] == fields[k]
      invariant out.Keys <= fields.Keys + AnnuitantFields
      invariant forall j :: 0 <= j < i && AnnuitantKeys[j].0 in fields ==>
        AnnuitantKeys[j].1 in out && out[AnnuitantKeys[j].1] == fields[AnnuitantKeys[j].0]
      invariant forall j :: 0 <= j < |AnnuitantKeys| && (i <= j || AnnuitantKeys[j].0 !in fields) ==>
        (AnnuitantKeys[j].1 in out <==> AnnuitantKeys[j].1 in fields) &&
        (AnnuitantKeys[j].1 in fields ==> out[AnnuitantKeys[j].1] == fields[AnnuitantKeys[j].1])
    {
      var (ownerKey, annuitantKey) := AnnuitantKeys[i];
      if ownerKey in out {
        out := out[annuitantKey := out[ownerKey]];
      }
    }
  }

  /** No annuitant field is set yet, and every owner field that is has a value. */
  predicate OwnerReady(fields: map<string, Value>)
  {
    forall j :: 0 <= j < |AnnuitantKeys| ==>
      AnnuitantKeys[j].1 !in fields && (AnnuitantKeys[j].0 in fields ==> !IsBlank(fields[AnnuitantKeys[j].0]))
  }

  /** The last filter of `query`: every "" or None value dropped. */
  function DropBlank(m: map<string, Value>): (r: map<string, Value>)
    ensures forall k :: k in r <==> k in m && !IsBlank(m[k])
    ensures forall k :: k in r ==> r[k] == m[k]
  {
    map k | k in m && !IsBlank(m[k]) :: m[k]
  }

  /** The two stamped keys are neither owner nor annuitant keys. */
  lemma StampKeysFresh()
    ensures "owner_type" !in AnnuitantFields && "owner_same_as_annuitant" !in AnnuitantFields
    ensures forall j :: 0 <= j < |AnnuitantKeys| ==>
      AnnuitantKeys[j].0 != "owner_type" && AnnuitantKeys[j].0 != "owner_same_as_annuitant" &&
      AnnuitantKeys[j].1 != "owner_type" && AnnuitantKeys[j].1 != "owner_same_as_annuitant" &&
      AnnuitantKeys[j].0 !in AnnuitantFields
  {
  }

  /** The end of `query` before the filter: the owner type and
      `owner_same_as_annuitant` set and the owner copied to the annuitant. */
  method Stamp(fields: map<string, Value>) returns (out: map<string, Value>)
    ensures "owner_type" in out && out["owner_type"] == Str("individual")
    ensures "owner_same_as_annuitant" in out && out["owner_same_as_annuitant"] == Bool(true)
    ensures forall k :: k in fields && k !in AnnuitantFields && k != "owner_type" && k != "owner_same_as_annuitant" ==>
      k in out && out[k] == fields[k]
    ensures out.Keys <= fields.Keys + AnnuitantFields + {"owner_type", "owner_same_as_annuitant"}
    ensures OwnerReady(fields) ==> forall j :: 0 <= j < |AnnuitantKeys| ==>
      (AnnuitantKeys[j].0 in out <==> AnnuitantKeys[j].1 in out) &&
      (AnnuitantKeys[j].0 in out ==> out[AnnuitantKeys[j].1] == out[AnnuitantKeys[j].0] && !IsBlank(out[AnnuitantKeys[j].0]))
  {
    var mapped := fields["owner_type" := Str("individual")]["owner_same_as_annuitant" := Bool(true)];
    StampKeysFresh();
    out := MirrorOwner(mapped);
  }

  /** The end of `query`: the owner type and `owner_same_as_annuitant` set, the
      owner copied to the annuitant, and every "" or None value dropped. */
  method Finish(fields: map<string, Value>) returns (out: map<string, Value>)
    ensures "owner_type" in out && out["owner_type"] == Str("individual")
    ensures "owner_same_as_annuitant" in out && out["owner_same_as_annuitant"] == Bool(true)
    ensures forall k :: k in out ==> !IsBlank(out[k])
    ensures forall k :: k in fields && k !in AnnuitantFields && k != "owner_type" && k != "owner_same_as_annuitant" ==>
      (k in out <==> !IsBlank(fields[k])) && (k in out ==> out[k] == fields[k])
    ensures OwnerReady(fields) ==> forall j :: 0 <= j < |AnnuitantKeys| ==>
      (AnnuitantKeys[j].0 in out <==> AnnuitantKeys[j].1 in out) &&
      (AnnuitantKeys[j].0 in out ==> out[AnnuitantKeys[j].1] == out[AnnuitantKeys[j].0])
    ensures out.Keys <= fields.Keys + AnnuitantFields + {"owner_type", "owner_same_as_annuitant"}
  {
    var stamped := Stamp(fields);
    out := DropBlank(stamped);
  }

  /** The address in the result of `query`: the first address's truthy street, city,
      state and zip, and no address key without one. */
  predicate AddressMapped(fields: map<string, Value>, addrData: Result<seq<(string, Value)>>)
  {
    match FirstEntry(addrData, "addresses")
    case None => forall k :: k in AddressKeys ==> k !in fields
    case Some(a) =>
      Copied(fields, "owner_address_street", a, "street_address") &&
      Copied(fields, "owner_address_city", a, "city") &&
      Copied(fields, "owner_address_state", a, "state") &&
      Copied(fields, "owner_address_zip", a, "zip")
  }

  /** The phone or email in the result of `query`: the first entry's `itemKey`, when
      there is an entry and that value is neither "" nor None. */
  predicate EntryMapped(fields: map<string, Value>, data: Result<seq<(string, Value)>>, listKey: string,
                        itemKey: string, fieldKey: string)
  {
    var v := if FirstEntry(data, listKey).Some? then GetOr(FirstEntry(data, listKey).value, itemKey, Str("")) else Null;
    (fieldKey in fields <==> !IsBlank(v)) && (fieldKey in fields ==> fields[fieldKey] == v)
  }

  /** Every key `query` can write. */
  const QueryKeys: set<string> := ContactKeys + AddressKeys + {"owner_phone", "owner_email"} +
                                  AnnuitantFields + {"owner_type", "owner_same_as_annuitant"}

  /** What `query` maps from readable fetched data: the contact's owner fields, the
      first address, phone and email, the fixed owner type, the annuitant mirroring
      the owner, no "" or None value, and no other key. */
  predicate ContactMapped(fields: map<string, Value>, contactData: seq<(string, Value)>,
                          addrData: Result<seq<(string, Value)>>, phoneData: Result<seq<(string, Value)>>,
                          emailData: Result<seq<(string, Value)>>, prims: Primitives)
    requires Readable(contactData, addrData, phoneData, emailData)
  {
    var c := ContactOf(contactData).members;
    IdentityMapped(fields, c, prims) && TraitsMapped(fields, c) &&
    AddressMapped(fields, addrData) &&
    EntryMapped(fields, phoneData, "phones", "number", "owner_phone") &&
    EntryMapped(fields, emailData, "emails", "address", "owner_email") &&
    "owner_type" in fields && fields["owner_type"] == Str("individual") &&
    "owner_same_as_annuitant" in fields && fields["owner_same_as_annuitant"] == Bool(true) &&
    (forall k :: k in fields ==> !IsBlank(fields[k])) &&
    (forall j :: 0 <= j < |AnnuitantKeys| ==>
      (AnnuitantKeys[j].0 in fields <==> AnnuitantKeys[j].1 in fields) &&
      (AnnuitantKeys[j].0 in fields ==> fields[AnnuitantKeys[j].1] == fields[AnnuitantKeys[j].0])) &&
    fields.Keys <= QueryKeys
  }

  /** `params.get("client_id", "")` */
  function ClientIdOf(params: seq<(string, Value)>): Value
  {
    GetOr(params, "client_id", Str(""))
  }

  /** `int(client_id)` succeeds. */
  predicate ClientIdConverts(id: Value, prims: Primitives)
  {
    match id
    case Str(s) => prims.parseInt(s).Some?
    case Num(_) => true
    case Bool(_) => true
    case _ => false
  }

  /** `contact_data.get("contact", contact_data)` */
  function ContactOf(contactData: seq<(string, Value)>): Value
  {
    GetOr(contactData, "contact", Obj(contactData))
  }

  /** Every section of the fetched data can be read without raising. */
  predicate Readable(contactData: seq<(string, Value)>, addrData: Result<seq<(string, Value)>>,
                     phoneData: Result<seq<(string, Value)>>, emailData: Result<seq<(string, Value)>>)
  {
    ContactOf(contactData).Obj? && ContactReadable(ContactOf(contactData).members) &&
    ListReadable(addrData, "addresses") && ListReadable(phoneData, "phones") && ListReadable(emailData, "emails")
  }

  /** `RedtailCRM.query` after the fetches: no client id gives {} and so does a
      failed contact fetch; otherwise the mapped owner fields, the fixed owner type,
      the annuitant mirroring the owner, and no "" or None value. */
  method Query(params: seq<(string, Value)>, contactData: Result<seq<(string, Value)>>,
               addrData: Result<seq<(string, Value)>>, phoneData: Result<seq<(string, Value)>>,
               emailData: Result<seq<(string, Value)>>, prims: Primitives)
    returns (r: Result<map<string, Value>>)
    ensures !Truthy(ClientIdOf(params)) ==> r == Ok(map[])
    ensures Truthy(ClientIdOf(params)) && !ClientIdConverts(ClientIdOf(params), prims) ==>
      r == Failed(if ClientIdOf(params).Str? then "ValueError" else "TypeError")
    ensures Truthy(ClientIdOf(params)) && ClientIdConverts(ClientIdOf(params), prims) && contactData.Failed? ==>
      r == Ok(map[])
    ensures Truthy(ClientIdOf(params)) && ClientIdConverts(ClientIdOf(params), prims) && contactData.Ok? ==>
      (r.Ok? <==> Readable(contactData.value, addrData, phoneData, emailData)) &&
      (r.Ok? ==> ContactMapped(r.value, contactData.value, addrData, phoneData, emailData, prims))
  {
    var clientId := ClientIdOf(params);
    if !Truthy(clientId) {
      return Ok(map[]);
    }
    if !ClientIdConverts(clientId, prims) {
      return Failed(if clientId.Str? then "ValueError" else "TypeError");
    }
    if contactData.Failed? {
      return Ok(map[]);
    }
    r := MapContact(contactData.value, addrData, phoneData, emailData, prims);
  }

  /** Only the address, phone and email sections follow the contact section, so
      the owner fields reach the end of `query` as that section left them. */
  lemma SectionsKeepOwner(owner: map<string, Value>, located: map<string, Value>,
                          phoned: map<string, Value>, emailed: map<string, Value>)
    requires owner.Keys <= ContactKeys && forall k :: k in owner ==> !IsBlank(owner[k])
    requires located.Keys <= owner.Keys + AddressKeys
    requires forall k :: k in owner && k !in AddressKeys ==> k in located && located[k] == owner[k]
    requires phoned.Keys <= located.Keys + {"owner_phone"}
    requires forall k :: k in phoned && k != "owner_phone" ==> k in located && phoned[k] == located[k]
    requires emailed.Keys <= phoned.Keys + {"owner_email"}
    requires forall k :: k in emailed && k != "owner_email" ==> k in phoned && emailed[k] == phoned[k]
    ensures OwnerReady(emailed)
  {
    forall j | 0 <= j < |AnnuitantKeys|
      ensures AnnuitantKeys[j].1 !in emailed
      ensures AnnuitantKeys[j].0 in emailed ==> !IsBlank(emailed[AnnuitantKeys[j].0])
    {
      var (o, a) := AnnuitantKeys[j];
      assert o in ContactKeys && o !in AddressKeys && o != "owner_phone" && o != "owner_email";
      assert a !in ContactKeys && a !in AddressKeys && a != "owner_phone" && a != "owner_email";
    }
  }

  /** `k` is in both maps with the same value, or in neither. */
  predicate Agree(a: map<string, Value>, b: map<string, Value>, k: string)
  {
    (k in a <==> k in b) && (k in a ==> a[k] == b[k])
  }

  /** The section for `fieldKey` took the first entry's `itemKey`, "" when it has none. */
  predicate SectionEntry(fields: map<string, Value>, data: Result<seq<(string, Value)>>, listKey: string,
                         itemKey: string, fieldKey: string)
  {
    (fieldKey in fields <==> FirstEntry(data, listKey).Some?) &&
    (fieldKey in fields ==> fields[fieldKey] == GetOr(FirstEntry(data, listKey).value, itemKey, Str("")))
  }

  /** What the address section gives over owner fields is the address of the result. */
  lemma LocatedAddress(owner: map<string, Value>, located: map<string, Value>, addrData: Result<seq<(string, Value)>>)
    requires owner.Keys <= ContactKeys
    requires FirstEntry(addrData, "addresses").None? ==> located == owner
    requires FirstEntry(addrData, "addresses").Some? ==>
      var a := FirstEntry(addrData, "addresses").value;
      Located(located, owner, "owner_address_street", a, "street_address") &&
      Located(located, owner, "owner_address_city", a, "city") &&
      Located(located, owner, "owner_address_state", a, "state") &&
      Located(located, owner, "owner_address_zip", a, "zip")
    requires located.Keys <= owner.Keys + AddressKeys
    requires forall k :: k in owner && k !in AddressKeys ==> k in located && located[k] == owner[k]
    ensures AddressMapped(located, addrData)
    ensures forall k :: k in ContactKeys ==> Agree(located, owner, k)
    ensures located.Keys <= ContactKeys + AddressKeys
  {
    assert forall k :: k in AddressKeys ==> k !in ContactKeys;
  }

  /** The phone and email keys are neither contact nor address keys. */
  lemma SectionKeysFresh()
    ensures "owner_phone" !in ContactKeys + AddressKeys && "owner_email" !in ContactKeys + AddressKeys
    ensures "owner_phone" != "owner_email"
  {
  }

  /** The phone or the email section sets only its own key, so the address stays
      mapped and every other key agrees. */
  lemma EntryStep(before: map<string, Value>, after: map<string, Value>, data: Result<seq<(string, Value)>>,
                  listKey: string, itemKey: string, fieldKey: string, addrData: Result<seq<(string, Value)>>)
    requires fieldKey !in AddressKeys && fieldKey !in ContactKeys && fieldKey !in before
    requires FirstEntry(data, listKey).None? ==> after == before
    requires FirstEntry(data, listKey).Some? ==>
      after == before[fieldKey := GetOr(FirstEntry(data, listKey).value, itemKey, Str(""))]
    requires AddressMapped(before, addrData)
    ensures AddressMapped(after, addrData)
    ensures forall k :: k != fieldKey ==> Agree(before, after, k)
    ensures SectionEntry(after, data, listKey, itemKey, fieldKey)
    ensures after.Keys == before.Keys + (if FirstEntry(data, listKey).Some? then {fieldKey} else {})
  {
    AddressAgrees(before, after, addrData);
  }

  /** A map that agrees on the address keys maps the same address. */
  lemma AddressAgrees(a: map<string, Value>, b: map<string, Value>, addrData: Result<seq<(string, Value)>>)
    requires AddressMapped(a, addrData)
    requires forall k :: k in AddressKeys ==> Agree(a, b, k)
    ensures AddressMapped(b, addrData)
  {
    assert Agree(a, b, "owner_address_street") && Agree(a, b, "owner_address_city");
    assert Agree(a, b, "owner_address_state") && Agree(a, b, "owner_address_zip");
  }

  /** The last step of `query` keeps every key the sections wrote with a value that is
      neither "" nor None. */
  lemma FinishKeeps(gathered: map<string, Value>, out: map<string, Value>)
    requires gathered.Keys <= ContactKeys + AddressKeys + {"owner_phone", "owner_email"}
    requires forall k :: k in gathered && k !in AnnuitantFields && k != "owner_type" && k != "owner_same_as_annuitant" ==>
      (k in out <==> !IsBlank(gathered[k])) && (k in out ==> out[k] == gathered[k])
    requires out.Keys <= gathered.Keys + AnnuitantFields + {"owner_type", "owner_same_as_annuitant"}
    ensures forall k :: k in ContactKeys + AddressKeys + {"owner_phone", "owner_email"} ==>
      (k in out <==> k in gathered && !IsBlank(gathered[k])) && (k in out ==> out[k] == gathered[k])
    ensures out.Keys <= QueryKeys
  {
    SectionKeysNotStamped();
  }

  /** The keys the sections write start with "o" and are neither 10 nor 23 characters
      long; the annuitant keys start with "a". */
  lemma ContactKeysShape()
    ensures forall k :: k in ContactKeys ==> |k| > 0 && k[0] == 'o' && |k| != 10 && |k| != 23
  {
  }

  lemma AddressKeysShape()
    ensures forall k :: k in AddressKeys + {"owner_phone", "owner_email"} ==>
      |k| > 0 && k[0] == 'o' && |k| != 10 && |k| != 23
  {
  }

  lemma AnnuitantKeysShape()
    ensures forall k :: k in AnnuitantFields ==> |k| > 0 && k[0] == 'a'
  {
  }

  /** Hence no key the sections write is an annuitant key or a stamped key. */
  lemma SectionKeysNotStamped()
    ensures forall k :: k in ContactKeys + AddressKeys + {"owner_phone", "owner_email"} ==>
      k !in AnnuitantFields && k != "owner_type" && k != "owner_same_as_annuitant"
  {
    ContactKeysShape();
    AddressKeysShape();
    AnnuitantKeysShape();
  }

  /** The owner fields and the address survive the last step of `query`. */
  lemma FinishedOwner(c: seq<(string, Value)>, owner: map<string, Value>, gathered: map<string, Value>,
                      out: map<string, Value>, addrData: Result<seq<(string, Value)>>, prims: Primitives)
    requires ContactReadable(c) && forall k :: k in owner ==> !IsBlank(owner[k])
    requires IdentityMapped(owner, c, prims) && TraitsMapped(owner, c) && AddressMapped(gathered, addrData)
    requires forall k :: k in ContactKeys ==> Agree(gathered, owner, k)
    requires forall k :: k in ContactKeys + AddressKeys ==>
      (k in out <==> k in gathered && !IsBlank(gathered[k])) && (k in out ==> out[k] == gathered[k])
    ensures IdentityMapped(out, c, prims) && TraitsMapped(out, c) && AddressMapped(out, addrData)
  {
    forall k | k in ContactKeys ensures Agree(out, owner, k) {
      assert Agree(gathered, owner, k);
    }
    assert Agree(out, owner, "owner_first_name") && Agree(out, owner, "owner_last_name");
    assert Agree(out, owner, "owner_ssn") && Agree(out, owner, "owner_date_of_birth");
    assert Agree(out, owner, "owner_gender") && Agree(out, owner, "owner_marital_status");
    forall k | k in AddressKeys ensures Agree(gathered, out, k) {
      assert k in gathered ==> Truthy(gathered[k]);
    }
    AddressAgrees(gathered, out, addrData);
  }

  /** The phone or email survives the last step of `query` unless it is "" or None. */
  lemma FinishedEntry(gathered: map<string, Value>, out: map<string, Value>, data: Result<seq<(string, Value)>>,
                      listKey: string, itemKey: string, fieldKey: string)
    requires SectionEntry(gathered, data, listKey, itemKey, fieldKey)
    requires (fieldKey in out <==> fieldKey in gathered && !IsBlank(gathered[fieldKey])) &&
      (fieldKey in out ==> out[fieldKey] == gathered[fieldKey])
    ensures EntryMapped(out, data, listKey, itemKey, fieldKey)
  {
  }

  /** The mapping part of `query`, once the contact has been fetched. */
  method MapContact(contactData: seq<(string, Value)>, addrData: Result<seq<(string, Value)>>,
                    phoneData: Result<seq<(string, Value)>>, emailData: Result<seq<(string, Value)>>,
                    prims: Primitives)
    returns (r: Result<map<string, Value>>)
    ensures r.Ok? <==> Readable(contactData, addrData, phoneData, emailData)
    ensures r.Ok? ==> ContactMapped(r.value, contactData, addrData, phoneData, emailData, prims)
  {
    var contact := ContactOf(contactData);
    if !contact.Obj? {
      return Failed("AttributeError");
    }
    var fields := ContactFields(contact.members, prims);
    if fields.Failed? {
      return Failed(fields.error);
    }
    var gathered := Sections(fields.value, addrData, phoneData, emailData);
    if gathered.Failed? {
      return Failed(gathered.error);
    }
    var out := Finish(gathered.value);
    FinishKeeps(gathered.value, out);
    FinishedOwner(contact.members, fields.value, gathered.value, out, addrData, prims);
    FinishedEntry(gathered.value, out, phoneData, "phones", "number", "owner_phone");
    FinishedEntry(gathered.value, out, emailData, "emails", "address", "owner_email");
    return Ok(out);
  }

  /** The address, phone and email sections, in that order, over the contact's owner
      fields; the owner fields stay ready for the annuitant mirror. */
  method Sections(owner: map<string, Value>, addrData: Result<seq<(string, Value)>>,
                  phoneData: Result<seq<(string, Value)>>, emailData: Result<seq<(string, Value)>>)
    returns (r: Result<map<string, Value>>)
    requires owner.Keys <= ContactKeys && forall k :: k in owner ==> !IsBlank(owner[k])
    ensures r.Ok? <==> ListReadable(addrData, "addresses") && ListReadable(phoneData, "phones") &&
                       ListReadable(emailData, "emails")
    ensures r.Ok? ==> OwnerReady(r.value)
    ensures r.Ok? ==> forall k :: k in ContactKeys ==> Agree(r.value, owner, k)
    ensures r.Ok? ==> r.value.Keys <= ContactKeys + AddressKeys + {"owner_phone", "owner_email"}
    ensures r.Ok? ==> AddressMapped(r.value, addrData)
    ensures r.Ok? ==> SectionEntry(r.value, phoneData, "phones", "number", "owner_phone")
    ensures r.Ok? ==> SectionEntry(r.value, emailData, "emails", "address", "owner_email")
  {
    var fields := AddressFields(owner, addrData);
    if fields.Failed? {
      return Failed(fields.error);
    }
    ghost var located := fields.value;
    fields := FirstEntryField(fields.value, phoneData, "phones", "number", "owner_phone");
    if fields.Failed? {
      return Failed(fields.error);
    }
    ghost var phoned := fields.value;
    fields := FirstEntryField(fields.value, emailData, "emails", "address", "owner_email");
    if fields.Failed? {
      return Failed(fields.error);
    }
    SectionsKeepOwner(owner, located, phoned, fields.value);
    SectionsCompose(owner, located, phoned, fields.value, addrData, phoneData, emailData);
    SectionsMapEntries(owner, located, phoned, fields.value, addrData, phoneData, emailData);
    return fields;
  }

  /** The three sections in a row keep the owner fields and write only address,
      phone and email keys. */
  lemma SectionsCompose(owner: map<string, Value>, located: map<string, Value>, phoned: map<string, Value>,
                        emailed: map<string, Value>, addrData: Result<seq<(string, Value)>>,
                        phoneData: Result<seq<(string, Value)>>, emailData: Result<seq<(string, Value)>>)
    requires owner.Keys <= ContactKeys && forall k :: k in owner ==> !IsBlank(owner[k])
    requires located.Keys <= owner.Keys + AddressKeys
    requires forall k :: k in owner && k !in AddressKeys ==> k in located && located[k] == owner[k]
    requires FirstEntry(addrData, "addresses").None? ==> located == owner
    requires FirstEntry(addrData, "addresses").Some? ==>
      var a := FirstEntry(addrData, "addresses").value;
      Located(located, owner, "owner_address_street", a, "street_address") &&
      Located(located, owner, "owner_address_city", a, "city") &&
      Located(located, owner, "owner_address_state", a, "state") &&
      Located(located, owner, "owner_address_zip", a, "zip")
    requires FirstEntry(phoneData, "phones").None? ==> phoned == located
    requires FirstEntry(phoneData, "phones").Some? ==>
      phoned == located["owner_phone" := GetOr(FirstEntry(phoneData, "phones").value, "number", Str(""))]
    requires FirstEntry(emailData, "emails").None? ==> emailed == phoned
    requires FirstEntry(emailData, "emails").Some? ==>
      emailed == phoned["owner_email" := GetOr(FirstEntry(emailData, "emails").value, "address", Str(""))]
    ensures forall k :: k in ContactKeys ==> Agree(emailed, owner, k)
    ensures emailed.Keys <= ContactKeys + AddressKeys + {"owner_phone", "owner_email"}
  {
    LocatedAddress(owner, located, addrData);
    SectionKeysFresh();
    EntryStep(located, phoned, phoneData, "phones", "number", "owner_phone", addrData);
    EntryStep(phoned, emailed, emailData, "emails", "address", "owner_email", addrData);
  }

  /** The three sections in a row map the address, and leave the phone and the email
      as their sections set them. */
  lemma SectionsMapEntries(owner: map<string, Value>, located: map<string, Value>, phoned: map<string, Value>,
                        emailed: map<string, Value>, addrData: Result<seq<(string, Value)>>,
                        phoneData: Result<seq<(string, Value)>>, emailData: Result<seq<(string, Value)>>)
    requires owner.Keys <= ContactKeys && forall k :: k in owner ==> !IsBlank(owner[k])
    requires located.Keys <= owner.Keys + AddressKeys
    requires forall k :: k in owner && k !in AddressKeys ==> k in located && located[k] == owner[k]
    requires FirstEntry(addrData, "addresses").None? ==> located == owner
    requires FirstEntry(addrData, "addresses").Some? ==>
      var a := FirstEntry(addrData, "addresses").value;
      Located(located, owner, "owner_address_street", a, "street_address") &&
      Located(located, owner, "owner_address_city", a, "city") &&
      Located(located, owner, "owner_address_state", a, "state") &&
      Located(located, owner, "owner_address_zip", a, "zip")
    requires FirstEntry(phoneData, "phones").None? ==> phoned == located
    requires FirstEntry(phoneData, "phones").Some? ==>
      phoned == located["owner_phone" := GetOr(FirstEntry(phoneData, "phones").value, "number", Str(""))]
    requires FirstEntry(emailData, "emails").None? ==> emailed == phoned
    requires FirstEntry(emailData, "emails").Some? ==>
      emailed == phoned["owner_email" := GetOr(FirstEntry(emailData, "emails").value, "address", Str(""))]
    ensures AddressMapped(emailed, addrData)
    ensures SectionEntry(emailed, phoneData, "phones", "number", "owner_phone")
    ensures SectionEntry(emailed, emailData, "emails", "address", "owner_email")
  {
    LocatedAddress(owner, located, addrData);
    SectionKeysFresh();
    EntryStep(located, phoned, phoneData, "phones", "number", "owner_phone", addrData);
    EntryStep(phoned, emailed, emailData, "emails", "address", "owner_email", addrData);
    assert Agree(phoned, emailed, "owner_phone");
  }

  // ---------------------------------------------------------------------------
  // `RedtailCRM.list_clients`

  /** A client offered for selection. */
  datatype Client = Client(clientId: string, displayName: string)

  /** `v or ""` */
  function OrBlank(v: Value): Value
  {
    if Truthy(v) then v else Str("")
  }

  /** The display name `f"{first} {last}".strip()` of a contact. */
  function DisplayName(c: seq<(string, Value)>, prims: Primitives): string
  {
    Strip(PyStr(OrBlank(GetOr(c, "first_name", Str(""))), prims) + " " +
          PyStr(OrBlank(GetOr(c, "last_name", Str(""))), prims))
  }

  /** `c.get("type", "") or ""` */
  function ContactType(c: seq<(string, Value)>): Value
  {
    OrBlank(GetOr(c, "type", Str("")))
  }

  predicate IsIndividual(contactType: string)
  {
    Lower(contactType) == "individual" || Lower(contactType) == ""
  }

  /** What one contact of a page adds to the list: itself, when it is an individual
      (or untyped) contact with a non-blank name, and nothing otherwise. */
  function ClientOf(c: Value, prims: Primitives): (r: Result<seq<Client>>)
    ensures r.Ok? <==> c.Obj? && ContactType(c.members).Str?
    ensures r.Failed? ==> r.error == "AttributeError"
    ensures r.Ok? ==> (r.value != [] <==> IsIndividual(ContactType(c.members).s) && DisplayName(c.members, prims) != "")
    ensures r.Ok? && r.value != [] ==>
      r.value == [Client(PyStr(GetOr(c.members, "id", Str("")), prims), DisplayName(c.members, prims))]
    ensures r.Ok? ==> forall x :: x in r.value ==>
      x.displayName != "" && !IsSpace(x.displayName[0]) && !IsSpace(x.displayName[|x.displayName| - 1])
  {
    if !c.Obj? then Failed("AttributeError")
    else
      var t := ContactType(c.members);
      if !t.Str? then Failed("AttributeError")
      else if !IsIndividual(t.s) then Ok([])
      else
        var display := DisplayName(c.members, prims);
        if display == "" then Ok([])
        else Ok([Client(PyStr(GetOr(c.members, "id", Str("")), prims), display)])
  }

  /** The clients the inner loop appends for one page. */
  function PageClients(contacts: seq<Value>, prims: Primitives): Result<seq<Client>>
  {
    Flatten(MapSeq(contacts, (c: Value) => ClientOf(c, prims)))
  }

  /** The inner loop of `list_clients` over one page's contacts. */
  method ClientsOfPage(contacts: seq<Value>, prims: Primitives) returns (r: Result<seq<Client>>)
    ensures r == PageClients(contacts, prims)
  {
    ghost var results := MapSeq(contacts, (c: Value) => ClientOf(c, prims));
    var added: seq<Client> := [];
    for i := 0 to |contacts|
      invariant Flatten(results[..i]) == Ok(added)
    {
      var one := ClientOf(contacts[i], prims);
      if one.Failed? {
        FlattenFailsAt(results, i, added);
        return Failed(one.error);
      }
      FlattenExtend(results, i, added);
      added := added + one.value;
    }
    assert results[..|contacts|] == results;
    return Ok(added);
  }

  const MaxPages: nat := 10

  /** A client whose display name is non-blank and trimmed. */
  predicate Named(x: Client)
  {
    x.displayName != "" && !IsSpace(x.displayName[0]) && !IsSpace(x.displayName[|x.displayName| - 1])
  }

  /** Every client a page yields has a non-blank, trimmed name. */
  lemma PageClientsNamed(contacts: seq<Value>, prims: Primitives)
    requires PageClients(contacts, prims).Ok?
    ensures forall x :: x in PageClients(contacts, prims).value ==> Named(x)
  {
    var rs := MapSeq(contacts, (c: Value) => ClientOf(c, prims));
    forall x | x in PageClients(contacts, prims).value ensures Named(x) {
      FlattenMembers(rs, x);
      var i :| 0 <= i < |rs| && rs[i].Ok? && x in rs[i].value;
      assert rs[i] == ClientOf(contacts[i], prims);
    }
  }

  /** What one page's response leads to: the end of the listing (with the clients
      found or the exception raised), or the clients found and the next page. */
  datatype PageStep = Stop(clients: Result<seq<Client>>) | Next(found: seq<Client>)

  /** One pass of the `while` body over the response `data` for `page`. */
  function ReadPage(data: seq<(string, Value)>, page: nat, prims: Primitives): PageStep
  {
    var contacts := GetOr(data, "contacts", Arr([]));
    if !Truthy(contacts) then Stop(Ok([]))
    else match Elements(contacts)
      case None => Stop(Failed("TypeError"))
      case Some(cs) =>
        match PageClients(cs, prims)
        case Failed(e) => Stop(Failed(e))
        case Ok(found) =>
          var meta := GetOr(data, "meta", Obj([]));
          if !meta.Obj? then Stop(Failed("AttributeError"))
          else match PyLe(GetOr(meta.members, "total_pages", Num(1.0)), Num(page as real))
            case None => Stop(Failed("TypeError"))
            case Some(true) => Stop(Ok(found))
            case Some(false) => Next(found)
  }

  /** What listing from `page` on gives, and how many pages it requests. */
  datatype Listing = Listing(clients: Result<seq<Client>>, pagesRead: nat)

  /** What one response leads to, given the page it answers. */
  type Reader = (seq<(string, Value)>, nat) -> PageStep

  /** The loop body of `list_clients` as a reader of responses. */
  function PageReader(prims: Primitives): Reader
  {
    (data: seq<(string, Value)>, page: nat) => ReadPage(data, page, prims)
  }

  /** The `while` loop of `list_clients` from `page` on, where `fetch(p)` is the
      response to the request for page `p` and `read` the loop body over it: it stops
      after page 10, on a failed request, and on a page the body ends the listing at. */
  function ListFrom(fetch: nat -> Result<seq<(string, Value)>>, read: Reader, page: nat): Listing
    decreases MaxPages + 1 - page
  {
    if page > MaxPages then Listing(Ok([]), 0)
    else match fetch(page)
      case Failed(e) => Listing(Failed(e), 1)
      case Ok(data) =>
        match read(data, page)
        case Stop(r) => Listing(r, 1)
        case Next(found) =>
          var rest := ListFrom(fetch, read, page + 1);
          Listing(Concat(Ok(found), rest.clients), rest.pagesRead + 1)
  }

  /** Every client a page yields has a non-blank, trimmed name. */
  lemma ReadPageNamed(data: seq<(string, Value)>, page: nat, prims: Primitives)
    ensures var step := ReadPage(data, page, prims);
      (step.Stop? && step.clients.Ok? ==> forall x :: x in step.clients.value ==> Named(x)) &&
      (step.Next? ==> forall x :: x in step.found ==> Named(x))
  {
    var contacts := GetOr(data, "contacts", Arr([]));
    if Truthy(contacts) && Elements(contacts).Some? && PageClients(Elements(contacts).value, prims).Ok? {
      PageClientsNamed(Elements(contacts).value, prims);
    }
  }

  /** `list_clients` requests at least one page and never more than ten. */
  lemma {:induction false} PagesReadBounded(fetch: nat -> Result<seq<(string, Value)>>, read: Reader, page: nat)
    requires page <= MaxPages
    ensures 1 <= ListFrom(fetch, read, page).pagesRead <= MaxPages + 1 - page
    decreases MaxPages + 1 - page
  {
    PagesReadStep(fetch, read, page);
    if page < MaxPages {
      PagesReadBounded(fetch, read, page + 1);
    } else {
      PastLastPage(fetch, read, page + 1);
    }
  }

  /** No request is made past page ten. */
  lemma PastLastPage(fetch: nat -> Result<seq<(string, Value)>>, read: Reader, page: nat)
    requires page > MaxPages
    ensures ListFrom(fetch, read, page) == Listing(Ok([]), 0)
  {
  }

  /** A page either ends the listing or adds one request to the listing from the next. */
  lemma PagesReadStep(fetch: nat -> Result<seq<(string, Value)>>, read: Reader, page: nat)
    requires page <= MaxPages
    ensures var n := ListFrom(fetch, read, page).pagesRead;
      n == 1 || n == ListFrom(fetch, read, page + 1).pagesRead + 1
  {
    if fetch(page).Ok? && read(fetch(page).value, page).Next? {
      ListFromNext(fetch, read, page, fetch(page).value);
    } else {
      ListFromStops(fetch, read, page);
    }
  }

  /** A failed request or the last page ends the listing. */
  lemma ListFromStops(fetch: nat -> Result<seq<(string, Value)>>, read: Reader, page: nat)
    requires page <= MaxPages
    requires fetch(page).Ok? ==> read(fetch(page).value, page).Stop?
    ensures fetch(page).Failed? ==> ListFrom(fetch, read, page) == Listing(Failed(fetch(page).error), 1)
    ensures fetch(page).Ok? ==>
      ListFrom(fetch, read, page) == Listing(read(fetch(page).value, page).clients, 1)
  {
  }

  /** A page that is not the last one is followed by the listing from the next. */
  lemma ListFromNext(fetch: nat -> Result<seq<(string, Value)>>, read: Reader, page: nat,
                     data: seq<(string, Value)>)
    requires page <= MaxPages && fetch(page) == Ok(data) && read(data, page).Next?
    ensures var rest := ListFrom(fetch, read, page + 1);
      ListFrom(fetch, read, page) ==
        Listing(Concat(Ok(read(data, page).found), rest.clients), rest.pagesRead + 1)
  {
  }

  /** The loop invariant of `list_clients` carries over to the next page. */
  lemma ListingContinues(fetch: nat -> Result<seq<(string, Value)>>, read: Reader, page: nat,
                         data: seq<(string, Value)>, found: seq<Client>, count: nat, next: nat)
    requires page <= MaxPages && fetch(page) == Ok(data) && read(data, page).Next? && next == page + 1
    ensures var rest := ListFrom(fetch, read, next);
      var now := ListFrom(fetch, read, page);
      Listing(Concat(Ok(found), now.clients), count + now.pagesRead) ==
        Listing(Concat(Ok(found + read(data, page).found), rest.clients), count + 1 + rest.pagesRead)
  {
    ListFromNext(fetch, read, page, data);
    ConcatAssociates(found, read(data, page).found, ListFrom(fetch, read, page + 1).clients);
  }

  /** The body of the `while` loop of `list_clients` after the request: the page's
      clients, and whether this page is the last. */
  method ReadResponse(data: seq<(string, Value)>, page: nat, prims: Primitives) returns (step: PageStep)
    ensures step == ReadPage(data, page, prims)
  {
    var contacts := GetOr(data, "contacts", Arr([]));
    if !Truthy(contacts) {
      return Stop(Ok([]));
    }
    var cs := Elements(contacts);
    if cs.None? {
      return Stop(Failed("TypeError"));
    }
    var added := ClientsOfPage(cs.value, prims);
    if added.Failed? {
      return Stop(Failed(added.error));
    }
    var meta := GetOr(data, "meta", Obj([]));
    if !meta.Obj? {
      return Stop(Failed("AttributeError"));
    }
    var last := PyLe(GetOr(meta.members, "total_pages", Num(1.0)), Num(page as real));
    if last.None? {
      return Stop(Failed("TypeError"));
    }
    if last.value {
      return Stop(Ok(added.value));
    }
    return Next(added.value);
  }

  /** `list_clients`: requests pages 1, 2, … in turn and collects the individual
      clients; `pagesRead` is the number of requests made. */
  method ListClients(fetch: nat -> Result<seq<(string, Value)>>, prims: Primitives)
    returns (clients: Result<seq<Client>>, pagesRead: nat)
    ensures Listing(clients, pagesRead) == ListFrom(fetch, PageReader(prims), 1)
  {
    var found: seq<Client> := [];
    var page: nat := 1;
    pagesRead := 0;
    ghost var read := PageReader(prims);
    ghost var whole := ListFrom(fetch, read, 1);
    ConcatUnit(found, whole.clients);
    while page <= MaxPages
      invariant 1 <= page <= MaxPages + 1 && pagesRead == page - 1
      invariant whole == Listing(Concat(Ok(found), ListFrom(fetch, read, page).clients),
                                 pagesRead + ListFrom(fetch, read, page).pagesRead)
      decreases MaxPages + 1 - page
    {
      var response := fetch(page);
      pagesRead := pagesRead + 1;
      if response.Failed? {
        ListFromStops(fetch, read, page);
        return Failed(response.error), pagesRead;
      }
      var step := ReadResponse(response.value, page, prims);
      assert step == read(response.value, page);
      if step.Stop? {
        ListFromStops(fetch, read, page);
        return Concat(Ok(found), step.clients), pagesRead;
      }
      var next := page + 1;
      ListingContinues(fetch, read, page, response.value, found, pagesRead - 1, next);
      found := found + step.found;
      page := next;
    }
    PastLastPage(fetch, read, page);
    ConcatUnit(found, Ok([]));
    clients := Ok(found);
  }

  /** Every listed client has a non-blank, trimmed display name. */
  lemma {:induction false} ListedClientsAreNamed(fetch: nat -> Result<seq<(string, Value)>>, page: nat,
                                                 prims: Primitives, x: Client)
    requires ListFrom(fetch, PageReader(prims), page).clients.Ok?
    requires x in ListFrom(fetch, PageReader(prims), page).clients.value
    ensures Named(x)
    decreases MaxPages + 1 - page
  {
    var read := PageReader(prims);
    if page > MaxPages {
      PastLastPage(fetch, read, page);
      assert false;
    }
    var data := fetch(page).value;
    var step := ReadPage(data, page, prims);
    assert read(data, page) == step;
    ReadPageNamed(data, page, prims);
    match step
    case Stop(r) =>
      ListFromStops(fetch, read, page);
    case Next(found) =>
      ListFromNext(fetch, read, page, data);
      var rest := ListFrom(fetch, read, page + 1);
      if x !in found {
        assert x in rest.clients.value;
        ListedClientsAreNamed(fetch, page + 1, prims, x);
      }
  }
}
