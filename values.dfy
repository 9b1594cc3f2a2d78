/** Shared vocabulary of the model: the dynamically typed values the services pass
    around (JSON-like), the parts of Python's semantics the core relies on
    (truthiness, `==`, `in`, ordering), and the primitives the core borrows from
    libraries (regular expressions, number and date parsing, `str()`, JSON parsing),
    which the model receives as a record of total functions. */
module Values {

  datatype Option<+T> = None | Some(value: T)

  /** A tool call an LLM response asks for: its `id`, `name` and `input` dict. */
  datatype ToolCall = ToolCall(id: string, name: string, input: seq<(string, Value)>)

  /** The outcome of a call that may raise: its value, or the text of the exception. */
  datatype Result<+T> = Ok(value: T) | Failed(error: string)

  /** A JSON-like value.  Python's `int` and `float` are both `Num`; an object keeps
      the insertion order of its keys, as a Python dict does. */
  datatype Value =
    | Null
    | Bool(b: bool)
    | Num(n: real)
    | Str(s: string)
    | Arr(items: seq<Value>)
    | Obj(members: seq<(string, Value)>)

  /** Library behaviour the core depends on but that is not part of it.  Every lemma
      of the model holds for every choice of these functions. */
  datatype Primitives = Primitives(
    fullMatch: (string, string) -> bool,    // re.fullmatch(pattern, text) is not None
    prefixMatch: (string, string) -> bool,  // re.match(pattern, text) is not None
    parseFloat: string -> Option<real>,     // float(text), None on ValueError
    parseInt: string -> Option<int>,        // int(text), None on ValueError
    isoDate: string -> bool,                // date.fromisoformat(text) succeeds
    isoDateTime: string -> bool,            // datetime.fromisoformat(text) succeeds
    numberText: real -> string,             // str() of a number
    reprText: Value -> string,              // str() of a list or a dict
    parseJson: string -> Option<Value>,     // json.loads(text), None on a decode error
    dumpJson: Value -> string,              // json.dumps(value)
    jsonErrorText: string -> string         // str() of the JSONDecodeError json.loads(text) raises
  )

  // ---------------------------------------------------------------------------
  // Truthiness and Python's numeric view

  /** `bool(v)` in Python. */
  predicate Truthy(v: Value)
  {
    match v
    case Null => false
    case Bool(b) => b
    case Num(n) => n != 0.0
    case Str(s) => s != []
    case Arr(xs) => xs != []
    case Obj(ms) => ms != []
  }

  /** The number a value stands for in arithmetic and comparisons (`bool` is an `int`). */
  function NumberOf(v: Value): Option<real>
  {
    match v
    case Bool(b) => Some(if b then 1.0 else 0.0)
    case Num(n) => Some(n)
    case _ => None
  }

  /** `str(v)` */
  function PyStr(v: Value, prims: Primitives): string
  {
    match v
    case Null => "None"
    case Bool(b) => if b then "True" else "False"
    case Num(n) => prims.numberText(n)
    case Str(s) => s
    case _ => prims.reprText(v)
  }

  /** `float(v)`; None where Python raises ValueError or TypeError. */
  function ToFloat(v: Value, prims: Primitives): Option<real>
  {
    match v
    case Str(s) => prims.parseFloat(s)
    case _ => NumberOf(v)
  }

  // ---------------------------------------------------------------------------
  // Objects (Python dicts)

  /** `d.get(key)`: the value under `key`, if any. */
  function Get(ms: seq<(string, Value)>, key: string): Option<Value>
  {
    if ms == [] then None
    else if ms[0].0 == key then Some(ms[0].1)
    else Get(ms[1..], key)
  }

  /** A key is found exactly when the dict has it, and what is found is its first entry. */
  lemma {:induction false} GetFindsKey(ms: seq<(string, Value)>, key: string)
    ensures Get(ms, key).Some? <==> key in Keys(ms)
    ensures Get(ms, key).Some? ==> (key, Get(ms, key).value) in ms
  {
    if ms != [] {
      GetFindsKey(ms[1..], key);
      assert Keys(ms) == [ms[0].0] + Keys(ms[1..]);
    }
  }

  lemma {:induction false} GetAppend(a: seq<(string, Value)>, b: seq<(string, Value)>, key: string)
    ensures Get(a + b, key) == if Get(a, key).Some? then Get(a, key) else Get(b, key)
  {
    if a == [] {
      assert a + b == b;
    } else {
      assert (a + b)[0] == a[0];
      assert (a + b)[1..] == a[1..] + b;
      GetAppend(a[1..], b, key);
    }
  }

  /** Lookups in a three-key dict literal. */
  lemma ThreeKeys(k1: string, v1: Value, k2: string, v2: Value, k3: string, v3: Value)
    requires k1 != k2 && k1 != k3 && k2 != k3
    ensures var ms := [(k1, v1), (k2, v2), (k3, v3)];
      Keys(ms) == [k1, k2, k3] &&
      Get(ms, k1) == Some(v1) && Get(ms, k2) == Some(v2) && Get(ms, k3) == Some(v3)
  {
    var ms := [(k1, v1), (k2, v2), (k3, v3)];
    assert ms[1..] == [(k2, v2), (k3, v3)] && ms[1..][1..] == [(k3, v3)];
    assert Get(ms[1..][1..], k3) == Some(v3);
    assert Get(ms[1..], k3) == Some(v3);
    assert Get(ms[1..], k2) == Some(v2);
  }

  /** `d.get(key, default)` */
  function GetOr(ms: seq<(string, Value)>, key: string, default: Value): Value
  {
    match Get(ms, key)
    case Some(v) => v
    case None => default
  }

  function Keys(ms: seq<(string, Value)>): (ks: seq<string>)
    ensures |ks| == |ms| && forall i :: 0 <= i < |ms| ==> ks[i] == ms[i].0
  {
    if ms == [] then [] else [ms[0].0] + Keys(ms[1..])
  }

  /** `d[key] = v`: replaces the value in place when the key is present, appends otherwise. */
  function Put(ms: seq<(string, Value)>, key: string, v: Value): seq<(string, Value)>
  {
    if ms == [] then [(key, v)]
    else if ms[0].0 == key then [(key, v)] + ms[1..]
    else [ms[0]] + Put(ms[1..], key, v)
  }

  /** After `d[key] = v`, `key` holds `v` and every other key what it held. */
  lemma {:induction false} GetPut(ms: seq<(string, Value)>, key: string, v: Value, k: string)
    ensures Get(Put(ms, key, v), k) == if k == key then Some(v) else Get(ms, k)
  {
    if ms != [] && ms[0].0 != key {
      GetPut(ms[1..], key, v, k);
      assert ([ms[0]] + Put(ms[1..], key, v))[1..] == Put(ms[1..], key, v);
    } else if ms != [] {
      assert ([(key, v)] + ms[1..])[1..] == ms[1..];
    }
  }

  /** After `d[key] = v`, every key at once. */
  lemma GetPutAll(ms: seq<(string, Value)>, key: string, v: Value)
    ensures forall k :: Get(Put(ms, key, v), k) == if k == key then Some(v) else Get(ms, k)
  {
    forall k
      ensures Get(Put(ms, key, v), k) == if k == key then Some(v) else Get(ms, k)
    {
      GetPut(ms, key, v, k);
    }
  }

  /** `d[key] = v` keeps the key order, appending a new key at the end. */
  /** Membership form of KeysPut. */
  lemma KeysPutMember(ms: seq<(string, Value)>, key: string, v: Value, k: string)
    ensures k in Keys(Put(ms, key, v)) <==> k in Keys(ms) || k == key
  {
    KeysPut(ms, key, v);
  }

  lemma {:induction false} KeysPut(ms: seq<(string, Value)>, key: string, v: Value)
    ensures Keys(Put(ms, key, v)) == if key in Keys(ms) then Keys(ms) else Keys(ms) + [key]
  {
    if ms != [] && ms[0].0 != key {
      KeysPut(ms[1..], key, v);
      assert Keys(ms) == [ms[0].0] + Keys(ms[1..]);
      assert Keys(Put(ms, key, v)) == [ms[0].0] + Keys(Put(ms[1..], key, v));
    } else if ms != [] {
      assert Keys(ms) == [ms[0].0] + Keys(ms[1..]);
      assert Keys(Put(ms, key, v)) == [key] + Keys(ms[1..]);
    }
  }

  // ---------------------------------------------------------------------------
  // Python's `==`, `in` and ordering

  /** Python's `==` on values: numbers compare by value across `bool`, `int` and
      `float`; lists element-wise; dicts by key set and per-key values. */
  function PyEq(a: Value, b: Value): bool
    decreases a
  {
    if NumberOf(a).Some? || NumberOf(b).Some? then
      NumberOf(a).Some? && NumberOf(b).Some? && NumberOf(a).value == NumberOf(b).value
    else
      match a
      case Null => b.Null?
      case Str(x) => b.Str? && b.s == x
      case Arr(xs) =>
        b.Arr? && |xs| == |b.items| && forall i | 0 <= i < |xs| :: PyEq(xs[i], b.items[i])
      case Obj(xs) =>
        b.Obj? && (forall k | k in Keys(b.members) :: k in Keys(xs)) &&
        forall i | 0 <= i < |xs| ::
          Get(b.members, xs[i].0).Some? && PyEq(xs[i].1, Get(b.members, xs[i].0).value)
      case _ => false
  }

  /** Membership `v in xs` of a list. */
  predicate InList(v: Value, xs: seq<Value>)
  {
    exists i | 0 <= i < |xs| :: PyEq(v, xs[i])
  }

  /** `v in container`: None where Python raises TypeError (a container that is not a
      string, list or dict; a non-string tested against a string; an unhashable key
      tested against a dict). */
  function PyIn(v: Value, container: Value): Option<bool>
  {
    match container
    case Arr(xs) => Some(InList(v, xs))
    case Str(t) => if v.Str? then Some(IsSubstring(v.s, t)) else None
    case Obj(ms) =>
      if v.Arr? || v.Obj? then None
      else Some(v.Str? && v.s in Keys(ms))
    case _ => None
  }

  /** `a < b`: None where Python raises TypeError; comparisons between lists are not
      modelled and also give None. */
  function PyLt(a: Value, b: Value): Option<bool>
  {
    if NumberOf(a).Some? && NumberOf(b).Some? then Some(NumberOf(a).value < NumberOf(b).value)
    else if a.Str? && b.Str? then Some(StrLt(a.s, b.s))
    else None
  }

  /** `a <= b`, with the same partiality as PyLt. */
  function PyLe(a: Value, b: Value): Option<bool>
  {
    if NumberOf(a).Some? && NumberOf(b).Some? then Some(NumberOf(a).value <= NumberOf(b).value)
    else if a.Str? && b.Str? then Some(!StrLt(b.s, a.s))
    else None
  }

  // ---------------------------------------------------------------------------
  // Strings

  /** Python's string order: lexicographic by code point. */
  predicate StrLt(a: string, b: string)
  {
    if a == [] then b != []
    else if b == [] then false
    else if a[0] != b[0] then a[0] < b[0]
    else StrLt(a[1..], b[1..])
  }

  lemma {:induction false} StrLtIrreflexive(a: string)
    ensures !StrLt(a, a)
  {
    if a != [] { StrLtIrreflexive(a[1..]); }
  }

  lemma {:induction false} StrLtTransitive(a: string, b: string, c: string)
    requires StrLt(a, b) && StrLt(b, c)
    ensures StrLt(a, c)
  {
    if a != [] && b != [] && c != [] && a[0] == b[0] && b[0] == c[0] {
      StrLtTransitive(a[1..], b[1..], c[1..]);
    }
  }

  lemma {:induction false} StrLtTotal(a: string, b: string)
    ensures a == b || StrLt(a, b) || StrLt(b, a)
  {
    if a != [] && b != [] && a[0] == b[0] {
      StrLtTotal(a[1..], b[1..]);
      if a[1..] == b[1..] {
        assert a == [a[0]] + a[1..] && b == [b[0]] + b[1..];
      }
    }
  }

  lemma StrLtAsymmetric(a: string, b: string)
    requires StrLt(a, b)
    ensures !StrLt(b, a)
  {
    if StrLt(b, a) {
      StrLtTransitive(a, b, a);
      StrLtIrreflexive(a);
    }
  }

  /** "Not below" is transitive too. */
  lemma StrLeTransitive(a: string, b: string, c: string)
    requires !StrLt(a, b) && !StrLt(b, c)
    ensures !StrLt(a, c)
  {
    if StrLt(a, c) {
      StrLtTotal(a, b);
      StrLtTotal(b, c);
      if StrLt(b, a) {
        StrLtTransitive(b, a, c);
      }
      StrLtIrreflexive(a);
    }
  }

  /** Python's `s in t` on strings. */
  predicate IsSubstring(s: string, t: string)
  {
    exists i, j | 0 <= i <= j <= |t| :: t[i..j] == s
  }

  /** A decimal digit as `\d` matches it in a pattern over text: a character of the
      Unicode category Nd (Unicode 15.0), of which '0' to '9' are the ASCII ones. */
  predicate IsDigit(c: char)
  {
    '0' <= c <= '9' || '\U{000660}' <= c <= '\U{000669}' || '\U{0006F0}' <= c <= '\U{0006F9}' ||
    '\U{0007C0}' <= c <= '\U{0007C9}' || '\U{000966}' <= c <= '\U{00096F}' ||
    '\U{0009E6}' <= c <= '\U{0009EF}' || '\U{000A66}' <= c <= '\U{000A6F}' ||
    '\U{000AE6}' <= c <= '\U{000AEF}' || '\U{000B66}' <= c <= '\U{000B6F}' ||
    '\U{000BE6}' <= c <= '\U{000BEF}' || '\U{000C66}' <= c <= '\U{000C6F}' ||
    '\U{000CE6}' <= c <= '\U{000CEF}' || '\U{000D66}' <= c <= '\U{000D6F}' ||
    '\U{000DE6}' <= c <= '\U{000DEF}' || '\U{000E50}' <= c <= '\U{000E59}' ||
    '\U{000ED0}' <= c <= '\U{000ED9}' || '\U{000F20}' <= c <= '\U{000F29}' ||
    '\U{001040}' <= c <= '\U{001049}' || '\U{001090}' <= c <= '\U{001099}' ||
    '\U{0017E0}' <= c <= '\U{0017E9}' || '\U{001810}' <= c <= '\U{001819}' ||
    '\U{001946}' <= c <= '\U{00194F}' || '\U{0019D0}' <= c <= '\U{0019D9}' ||
    '\U{001A80}' <= c <= '\U{001A89}' || '\U{001A90}' <= c <= '\U{001A99}' ||
    '\U{001B50}' <= c <= '\U{001B59}' || '\U{001BB0}' <= c <= '\U{001BB9}' ||
    '\U{001C40}' <= c <= '\U{001C49}' || '\U{001C50}' <= c <= '\U{001C59}' ||
    '\U{00A620}' <= c <= '\U{00A629}' || '\U{00A8D0}' <= c <= '\U{00A8D9}' ||
    '\U{00A900}' <= c <= '\U{00A909}' || '\U{00A9D0}' <= c <= '\U{00A9D9}' ||
    '\U{00A9F0}' <= c <= '\U{00A9F9}' || '\U{00AA50}' <= c <= '\U{00AA59}' ||
    '\U{00ABF0}' <= c <= '\U{00ABF9}' || '\U{00FF10}' <= c <= '\U{00FF19}' ||
    '\U{0104A0}' <= c <= '\U{0104A9}' || '\U{010D30}' <= c <= '\U{010D39}' ||
    '\U{011066}' <= c <= '\U{01106F}' || '\U{0110F0}' <= c <= '\U{0110F9}' ||
    '\U{011136}' <= c <= '\U{01113F}' || '\U{0111D0}' <= c <= '\U{0111D9}' ||
    '\U{0112F0}' <= c <= '\U{0112F9}' || '\U{011450}' <= c <= '\U{011459}' ||
    '\U{0114D0}' <= c <= '\U{0114D9}' || '\U{011650}' <= c <= '\U{011659}' ||
    '\U{0116C0}' <= c <= '\U{0116C9}' || '\U{011730}' <= c <= '\U{011739}' ||
    '\U{0118E0}' <= c <= '\U{0118E9}' || '\U{011950}' <= c <= '\U{011959}' ||
    '\U{011C50}' <= c <= '\U{011C59}' || '\U{011D50}' <= c <= '\U{011D59}' ||
    '\U{011DA0}' <= c <= '\U{011DA9}' || '\U{011F50}' <= c <= '\U{011F59}' ||
    '\U{016A60}' <= c <= '\U{016A69}' || '\U{016AC0}' <= c <= '\U{016AC9}' ||
    '\U{016B50}' <= c <= '\U{016B59}' || '\U{01D7CE}' <= c <= '\U{01D7FF}' ||
    '\U{01E140}' <= c <= '\U{01E149}' || '\U{01E2F0}' <= c <= '\U{01E2F9}' ||
    '\U{01E4F0}' <= c <= '\U{01E4F9}' || '\U{01E950}' <= c <= '\U{01E959}' ||
    '\U{01FBF0}' <= c <= '\U{01FBF9}'
  }

  /** Python's whitespace (`str.isspace()`, and `\s` in a pattern over text). */
  predicate IsSpace(c: char)
  {
    c == ' ' || '\t' <= c <= '\r' || '\U{001C}' <= c <= '\U{001F}' || c == '\U{0085}' || c == '\U{00A0}'
    || c == '\U{1680}' || '\U{2000}' <= c <= '\U{200A}' || c == '\U{2028}' || c == '\U{2029}'
    || c == '\U{202F}' || c == '\U{205F}' || c == '\U{3000}'
  }

  /** `s.strip()` */
  function Strip(s: string): (r: string)
    ensures |r| <= |s|
    ensures r != [] ==> !IsSpace(r[0]) && !IsSpace(r[|r| - 1])
    ensures IsSubstring(r, s)
  {
    if s == [] then assert s[0..0] == s; s
    else if IsSpace(s[0]) then
      var r := Strip(s[1..]);
      SubstringOfTail(r, s);
      r
    else if IsSpace(s[|s| - 1]) then
      var r := Strip(s[..|s| - 1]);
      SubstringOfInit(r, s);
      r
    else
      assert s[0..|s|] == s;
      s
  }

  /** A substring of all but the first element is a substring of the whole. */
  lemma SubstringOfTail(r: string, s: string)
    requires s != [] && IsSubstring(r, s[1..])
    ensures IsSubstring(r, s)
  {
    var i, j :| 0 <= i <= j <= |s[1..]| && s[1..][i..j] == r;
    assert s[i + 1..j + 1] == r;
  }

  /** A substring of all but the last element is a substring of the whole. */
  lemma SubstringOfInit(r: string, s: string)
    requires s != [] && IsSubstring(r, s[..|s| - 1])
    ensures IsSubstring(r, s)
  {
    var i, j :| 0 <= i <= j <= |s[..|s| - 1]| && s[..|s| - 1][i..j] == r;
    assert s[i..j] == s[..|s| - 1][i..j];
  }

  /** One step of strip, by which end it trims. */
  lemma StripStep(s: string)
    requires s != []
    ensures IsSpace(s[0]) ==> Strip(s) == Strip(s[1..])
    ensures !IsSpace(s[0]) && IsSpace(s[|s| - 1]) ==> Strip(s) == Strip(s[..|s| - 1])
    ensures !IsSpace(s[0]) && !IsSpace(s[|s| - 1]) ==> Strip(s) == s
  {
  }

  /** Text with no blank at either end is its own strip. */
  lemma StripAlreadyStripped(s: string)
    requires s != [] ==> !IsSpace(s[0]) && !IsSpace(s[|s| - 1])
    ensures Strip(s) == s
  {
  }

  predicate AllSpace(t: string)
  {
    forall k | 0 <= k < |t| :: IsSpace(t[k])
  }

  /** Strip removes whitespace at both ends and nothing else: what it leaves is a
      slice of the text with only whitespace before and after it. */
  lemma StripTrimsEnds(s: string)
    ensures exists i, j :: 0 <= i <= j <= |s| && Strip(s) == s[i..j] && AllSpace(s[..i]) && AllSpace(s[j..])
  {
    var i, j := StripBounds(s);
  }

  /** The bounds of what strip leaves. */
  lemma {:induction false} StripBounds(s: string) returns (i: nat, j: nat)
    ensures i <= j <= |s| && Strip(s) == s[i..j] && AllSpace(s[..i]) && AllSpace(s[j..])
    decreases |s|
  {
    if s == [] {
      i, j := 0, 0;
    } else if IsSpace(s[0]) {
      var i', j' := StripBounds(s[1..]);
      i, j := LeadingSpace(s, i', j');
    } else if IsSpace(s[|s| - 1]) {
      i, j := StripBounds(s[..|s| - 1]);
      TrailingSpace(s, i, j);
    } else {
      i, j := 0, |s|;
      assert s[0..|s|] == s;
    }
  }

  lemma LeadingSpace(s: string, i': nat, j': nat) returns (i: nat, j: nat)
    requires s != [] && IsSpace(s[0])
    requires i' <= j' <= |s| - 1 && Strip(s[1..]) == s[1..][i'..j'] && AllSpace(s[1..][..i']) && AllSpace(s[1..][j'..])
    ensures i <= j <= |s| && Strip(s) == s[i..j] && AllSpace(s[..i]) && AllSpace(s[j..])
  {
    i, j := i' + 1, j' + 1;
    assert s[1..][i'..j'] == s[i..j];
    assert s[..i] == [s[0]] + s[1..][..i'];
    assert s[j..] == s[1..][j'..];
  }

  lemma TrailingSpace(s: string, i: nat, j: nat)
    requires s != [] && !IsSpace(s[0]) && IsSpace(s[|s| - 1])
    requires var t := s[..|s| - 1];
      i <= j <= |t| && Strip(t) == t[i..j] && AllSpace(t[..i]) && AllSpace(t[j..])
    ensures i <= j <= |s| && Strip(s) == s[i..j] && AllSpace(s[..i]) && AllSpace(s[j..])
  {
    var t := s[..|s| - 1];
    assert t[i..j] == s[i..j];
    assert s[..i] == t[..i];
    assert s[j..] == t[j..] + [s[|s| - 1]];
  }

  /** A trailing blank does not change what strip leaves. */
  lemma {:induction false} StripDropsTrailingSpace(s: string, c: char)
    requires IsSpace(c)
    ensures Strip(s + [c]) == Strip(s)
  {
    if s == [] {
      assert Strip([c]) == Strip([c][1..]);
    } else if IsSpace(s[0]) {
      assert (s + [c])[1..] == s[1..] + [c];
      StripDropsTrailingSpace(s[1..], c);
    } else {
      assert (s + [c])[..|s|] == s;
    }
  }

  /** Lower-casing of ASCII letters (`str.lower()` on ASCII text). */
  function Lower(s: string): (r: string)
    ensures |r| == |s|
    ensures forall i :: 0 <= i < |s| ==> r[i] == LowerChar(s[i])
  {
    if s == [] then [] else [LowerChar(s[0])] + Lower(s[1..])
  }

  function LowerChar(c: char): char
  {
    if 'A' <= c <= 'Z' then (c as int + 32) as char else c
  }

  /** Lower-casing neither makes nor removes whitespace. */
  lemma LowerCharSpace(c: char)
    ensures IsSpace(LowerChar(c)) == IsSpace(c)
  {
  }

  predicate StartsWith(s: string, prefix: string)
  {
    |prefix| <= |s| && s[..|prefix|] == prefix
  }

  predicate EndsWith(s: string, suffix: string)
  {
    |suffix| <= |s| && s[|s| - |suffix|..] == suffix
  }

  /** Index of the first occurrence of `c`, if any (`s.index(c)`). */
  function IndexOf(s: string, c: char): (r: Option<nat>)
    ensures r.Some? ==> r.value < |s| && s[r.value] == c && c !in s[..r.value]
    ensures r.None? <==> c !in s
  {
    if s == [] then None
    else if s[0] == c then Some(0)
    else
      match IndexOf(s[1..], c)
      case Some(k) => assert s[..k + 1] == [s[0]] + s[1..][..k]; Some(k + 1)
      case None => None
  }

  // ---------------------------------------------------------------------------
  // Lists

  /** `[x for x in s if p(x)]` */
  function Filter<T>(s: seq<T>, p: T -> bool): (r: seq<T>)
    ensures |r| <= |s|
  {
    if s == [] then [] else (if p(s[0]) then [s[0]] else []) + Filter(s[1..], p)
  }

  lemma {:induction false} FilterMembers<T>(s: seq<T>, p: T -> bool, x: T)
    ensures x in Filter(s, p) <==> x in s && p(x)
  {
    if s != [] {
      FilterMembers(s[1..], p, x);
      assert s == [s[0]] + s[1..];
    }
  }

  lemma {:induction false} FilterNone<T>(s: seq<T>, p: T -> bool)
    requires forall x | x in s :: !p(x)
    ensures Filter(s, p) == []
  {
    if s != [] { FilterNone(s[1..], p); }
  }

  lemma {:induction false} FilterAll<T>(s: seq<T>, p: T -> bool)
    ensures forall x :: x in Filter(s, p) ==> p(x) && x in s
  {
    forall x | x in Filter(s, p) ensures p(x) && x in s { FilterMembers(s, p, x); }
  }

  lemma {:induction false} FilterAppend<T>(s: seq<T>, t: seq<T>, p: T -> bool)
    ensures Filter(s + t, p) == Filter(s, p) + Filter(t, p)
  {
    if s == [] {
      assert s + t == t;
    } else {
      var head := if p(s[0]) then [s[0]] else [];
      calc {
        Filter(s + t, p);
        == { assert (s + t)[0] == s[0]; assert (s + t)[1..] == s[1..] + t; }
        head + Filter(s[1..] + t, p);
        == { FilterAppend(s[1..], t, p); }
        head + (Filter(s[1..], p) + Filter(t, p));
      }
    }
  }

  /** `sep.join(parts)` */
  function Join(sep: string, parts: seq<string>): (r: string)
    ensures parts == [] ==> r == []
    ensures |parts| == 1 ==> r == parts[0]
  {
    if parts == [] then []
    else if |parts| == 1 then parts[0]
    else parts[0] + sep + Join(sep, parts[1..])
  }

  /** `[f(x) for x in s]` */
  function MapSeq<T, U>(s: seq<T>, f: T -> U): (r: seq<U>)
    ensures |r| == |s| && forall i :: 0 <= i < |s| ==> r[i] == f(s[i])
  {
    if s == [] then [] else [f(s[0])] + MapSeq(s[1..], f)
  }

  /** `value is None or value == ""` */
  predicate IsBlank(v: Value) { v == Null || v == Str("") }

  /** The first occurrence is the one IndexOf finds. */
  lemma IndexOfFirst(s: string, c: char, i: nat)
    requires i < |s| && s[i] == c && c !in s[..i]
    ensures IndexOf(s, c) == Some(i)
  {
    assert c in s;
  }

  // ---------------------------------------------------------------------------
  // Iteration over dynamically typed values

  /** What `for x in v` visits: a list's items, a string's one-character strings, a
      dict's keys; None where Python raises TypeError. */
  function Elements(v: Value): Option<seq<Value>>
  {
    match v
    case Arr(xs) => Some(xs)
    case Str(s) => Some(MapSeq(s, (c: char) => Str([c])))
    case Obj(ms) => Some(MapSeq(Keys(ms), (k: string) => Str(k)))
    case _ => None
  }

  /** The dicts among `vs`, when all of them are dicts (`x.get(...)` raises
      AttributeError on anything else). */
  function AllDicts(vs: seq<Value>): (r: Option<seq<seq<(string, Value)>>>)
    ensures r.Some? <==> forall i :: 0 <= i < |vs| ==> vs[i].Obj?
    ensures r.Some? ==> |r.value| == |vs| && forall i :: 0 <= i < |vs| ==> vs[i] == Obj(r.value[i])
  {
    if vs == [] then Some([])
    else if !vs[0].Obj? then None
    else match AllDicts(vs[1..])
      case None => None
      case Some(rest) => Some([vs[0].members] + rest)
  }

  // ---------------------------------------------------------------------------
  // Lists built by `extend` in a loop that an exception may cut short

  /** `a` then `b`: the first exception wins, otherwise the two lists joined. */
  function Concat<T>(a: Result<seq<T>>, b: Result<seq<T>>): Result<seq<T>>
  {
    match a
    case Failed(e) => Failed(e)
    case Ok(xs) =>
      match b
      case Failed(e) => Failed(e)
      case Ok(ys) => Ok(xs + ys)
  }

  lemma ConcatUnit<T>(a: seq<T>, c: Result<seq<T>>)
    ensures Concat(Ok([]), c) == c
    ensures Concat(Ok(a), Ok([])) == Ok(a)
  {
    if c.Ok? {
      assert [] + c.value == c.value;
    }
    assert a + [] == a;
  }

  lemma ConcatAssociates<T>(a: seq<T>, b: seq<T>, c: Result<seq<T>>)
    ensures Concat(Ok(a), Concat(Ok(b), c)) == Concat(Ok(a + b), c)
  {
    if c.Ok? {
      assert a + (b + c.value) == (a + b) + c.value;
    }
  }

  /** `out.extend(r)` for each result in turn, stopping at the first exception. */
  function Flatten<T>(rs: seq<Result<seq<T>>>): Result<seq<T>>
  {
    if rs == [] then Ok([]) else Concat(Flatten(rs[..|rs| - 1]), rs[|rs| - 1])
  }

  /** One more result extends the flattened prefix. */
  lemma FlattenStep<T>(rs: seq<Result<seq<T>>>, i: nat)
    requires i < |rs|
    ensures Flatten(rs[..i + 1]) == Concat(Flatten(rs[..i]), rs[i])
  {
    assert rs[..i + 1][..i] == rs[..i];
  }

  /** A loop step that raises nothing extends the list with the result's items. */
  lemma FlattenExtend<T>(rs: seq<Result<seq<T>>>, i: nat, acc: seq<T>)
    requires i < |rs| && Flatten(rs[..i]) == Ok(acc) && rs[i].Ok?
    ensures Flatten(rs[..i + 1]) == Ok(acc + rs[i].value)
  {
    FlattenStep(rs, i);
  }

  /** A loop step that raises ends the whole loop with that exception. */
  lemma FlattenFailsAt<T>(rs: seq<Result<seq<T>>>, i: nat, acc: seq<T>)
    requires i < |rs| && Flatten(rs[..i]) == Ok(acc) && rs[i].Failed?
    ensures Flatten(rs) == Failed(rs[i].error)
  {
    FlattenStep(rs, i);
    FlattenStopsAtFailure(rs, i + 1);
  }

  /** Once an exception is raised, later results do not matter. */
  lemma {:induction false} FlattenStopsAtFailure<T>(rs: seq<Result<seq<T>>>, i: nat)
    requires i <= |rs| && Flatten(rs[..i]).Failed?
    ensures Flatten(rs) == Flatten(rs[..i])
  {
    if i < |rs| {
      var n := |rs| - 1;
      assert rs[..n][..i] == rs[..i];
      FlattenStopsAtFailure(rs[..n], i);
      assert rs[..|rs|] == rs;
    } else {
      assert rs[..i] == rs;
    }
  }

  /** The loop runs through without an exception exactly when no result is one. */
  lemma {:induction false} FlattenOk<T>(rs: seq<Result<seq<T>>>)
    ensures Flatten(rs).Ok? <==> forall i :: 0 <= i < |rs| ==> rs[i].Ok?
  {
    if rs != [] {
      var n := |rs| - 1;
      FlattenOk(rs[..n]);
      assert forall i :: 0 <= i < n ==> rs[..n][i] == rs[i];
    }
  }

  /** Every item of the flattened list comes from one of the results. */
  lemma {:induction false} FlattenMembers<T>(rs: seq<Result<seq<T>>>, x: T)
    requires Flatten(rs).Ok? && x in Flatten(rs).value
    ensures exists i :: 0 <= i < |rs| && rs[i].Ok? && x in rs[i].value
  {
    var n := |rs| - 1;
    var xs := Flatten(rs[..n]).value;
    assert Flatten(rs).value == xs + rs[n].value;
    if x in xs {
      FlattenMembers(rs[..n], x);
      var i :| 0 <= i < n && rs[..n][i].Ok? && x in rs[..n][i].value;
      assert rs[..n][i] == rs[i];
    }
  }
}
