/** The Retell phone-call routes (ai-service/app/routes/retell.py): the reading of
    the post-call analysis, and the in-memory table of call records that
    `initiate_call`, the webhook and `get_call_status` keep.  What Retell returns is
    an input: the created call, the webhook body and the polled call, and a failed
    poll as the exception it raised. */
module Retell {
  import opened Values

  // ---------------------------------------------------------------------------
  // `_parse_analysis_fields`

  /** `(str(k), str(v))` */
  function StrPair(kv: (string, Value), prims: Primitives): (string, string)
  {
    (kv.0, PyStr(kv.1, prims))
  }

  /** `{str(k): str(v) for k, v in items}` */
  function Stringify(ms: seq<(string, Value)>, prims: Primitives): (r: seq<(string, string)>)
    ensures |r| == |ms| && forall i :: 0 <= i < |ms| ==> r[i] == StrPair(ms[i], prims)
  {
    MapSeq(ms, kv => StrPair(kv, prims))
  }

  predicate NotCollected(kv: (string, Value))
  {
    kv.0 != "collected_fields"
  }

  /** `analysis.get("custom_analysis_data") or {}` */
  function RawOf(analysis: seq<(string, Value)>): Value
  {
    var raw := GetOr(analysis, "custom_analysis_data", Null);
    if Truthy(raw) then raw else Obj([])
  }

  /** `raw.get("collected_fields", "")` */
  function CollectedOf(raw: seq<(string, Value)>): Value
  {
    GetOr(raw, "collected_fields", Str(""))
  }

  /** `_parse_analysis_fields`: the fields collected on the call.  A non-blank
      `collected_fields` string is read as JSON and a dict there gives every key and
      value as text; an absent or empty `collected_fields` gives the rest of the
      custom analysis data as text; anything else gives `{}`.  An analysis, or custom
      data, that is not a dict raises AttributeError. */
  function ParseAnalysisFields(analysis: Value, prims: Primitives): (r: Result<seq<(string, string)>>)
    ensures r.Failed? <==> !analysis.Obj? || !RawOf(analysis.members).Obj?
    ensures r.Failed? ==> r.error == "AttributeError"
  {
    if !analysis.Obj? then Failed("AttributeError")
    else
      var raw := RawOf(analysis.members);
      if !raw.Obj? then Failed("AttributeError")
      else
        var collected := CollectedOf(raw.members);
        if collected.Str? && Strip(collected.s) != [] then
          match prims.parseJson(collected.s)
          case Some(Obj(parsed)) => Ok(Stringify(parsed, prims))
          case _ => Ok([])
        else if !Truthy(collected) then Ok(Stringify(Filter(raw.members, NotCollected), prims))
        else Ok([])
  }

  /** A `collected_fields` string holding a JSON dict gives each of its entries, in
      order, as text; one holding other JSON, or no JSON, gives `{}`. */
  lemma CollectedJson(analysis: seq<(string, Value)>, prims: Primitives)
    requires RawOf(analysis).Obj?
    requires var c := CollectedOf(RawOf(analysis).members); c.Str? && Strip(c.s) != []
    ensures var r := ParseAnalysisFields(Obj(analysis), prims);
      match prims.parseJson(CollectedOf(RawOf(analysis).members).s)
      case Some(Obj(parsed)) =>
        r.Ok? && |r.value| == |parsed| && forall i :: 0 <= i < |parsed| ==>
          r.value[i].0 == parsed[i].0 && r.value[i].1 == PyStr(parsed[i].1, prims)
      case _ => r == Ok([])
  {
    var raw := RawOf(analysis).members;
    var c := CollectedOf(raw);
    assert ParseAnalysisFields(Obj(analysis), prims) ==
      match prims.parseJson(c.s)
      case Some(Obj(parsed)) => Ok(Stringify(parsed, prims))
      case _ => Ok([]);
  }

  /** Without `collected_fields` (or with it empty), every other entry of the custom
      analysis data is given as text, and `collected_fields` itself is not. */
  lemma CollectedFallback(analysis: seq<(string, Value)>, prims: Primitives)
    requires RawOf(analysis).Obj? && !Truthy(CollectedOf(RawOf(analysis).members))
    ensures var r := ParseAnalysisFields(Obj(analysis), prims);
      r.Ok? &&
      (forall i :: 0 <= i < |r.value| ==> r.value[i].0 != "collected_fields") &&
      (forall i :: 0 <= i < |r.value| ==>
        exists kv :: kv in RawOf(analysis).members && kv.0 != "collected_fields" && r.value[i] == StrPair(kv, prims)) &&
      forall kv :: kv in RawOf(analysis).members && kv.0 != "collected_fields" ==>
        StrPair(kv, prims) in r.value
  {
    var raw := RawOf(analysis).members;
    var kept := Filter(raw, NotCollected);
    assert ParseAnalysisFields(Obj(analysis), prims) == Ok(Stringify(kept, prims));
    FilterAll(raw, NotCollected);
    forall i | 0 <= i < |kept|
      ensures Stringify(kept, prims)[i].0 != "collected_fields"
      ensures exists kv :: kv in raw && kv.0 != "collected_fields" && Stringify(kept, prims)[i] == StrPair(kv, prims)
    {
      assert kept[i] in kept;
      FilterMembers(raw, NotCollected, kept[i]);
      assert Stringify(kept, prims)[i] == StrPair(kept[i], prims);
    }
    forall kv | kv in raw && kv.0 != "collected_fields"
      ensures StrPair(kv, prims) in Stringify(kept, prims)
    {
      FilterMembers(raw, NotCollected, kv);
      var i :| 0 <= i < |kept| && kept[i] == kv;
      assert Stringify(kept, prims)[i] == StrPair(kv, prims);
    }
  }

  /** A `collected_fields` of blanks only, or one that is neither text nor empty, gives `{}`. */
  lemma CollectedUnreadable(analysis: seq<(string, Value)>, prims: Primitives)
    requires RawOf(analysis).Obj?
    requires var c := CollectedOf(RawOf(analysis).members);
      Truthy(c) && (c.Str? ==> Strip(c.s) == [])
    ensures ParseAnalysisFields(Obj(analysis), prims) == Ok([])
  {
  }

  // ---------------------------------------------------------------------------
  // What a finished call reports

  /** `f"{e.get('role', 'unknown')}: {e.get('content', '')}"` */
  function Line(e: seq<(string, Value)>, prims: Primitives): string
  {
    PyStr(GetOr(e, "role", Str("unknown")), prims) + ": " + PyStr(GetOr(e, "content", Str("")), prims)
  }

  /** The transcript: the entries' lines joined by newlines, or None when there are
      no entries.  Entries that cannot be iterated raise TypeError; an entry that is
      not a dict raises AttributeError. */
  function TranscriptOf(entries: Value, prims: Primitives): (r: Result<Value>)
    ensures r == Ok(Null) <==> !Truthy(entries)
    ensures r.Ok? && Truthy(entries) ==> r.value.Str?
  {
    if !Truthy(entries) then Ok(Null)
    else
      match Elements(entries)
      case None => Failed("TypeError")
      case Some(xs) =>
        match AllDicts(xs)
        case None => Failed("AttributeError")
        case Some(ds) => Ok(Str(Join("\n", MapSeq(ds, d => Line(d, prims)))))
  }

  /** A single entry's transcript is its own "role: content" line, with no separator. */
  lemma TranscriptOfOne(e: seq<(string, Value)>, prims: Primitives)
    ensures TranscriptOf(Arr([Obj(e)]), prims) == Ok(Str(Line(e, prims)))
  {
    var xs := [Obj(e)];
    assert AllDicts(xs[1..]) == Some([]);
    assert [xs[0].members] + [] == [e];
    assert AllDicts(xs) == Some([e]);
    assert MapSeq([e], d => Line(d, prims)) == [Line(e, prims)];
  }

  lemma DictsOfEntries(entries: seq<seq<(string, Value)>>)
    ensures AllDicts(MapSeq(entries, d => Obj(d))) == Some(entries)
  {
    var xs := MapSeq(entries, d => Obj(d));
    assert forall i :: 0 <= i < |xs| ==> xs[i].Obj?;
    var ds := AllDicts(xs).value;
    forall i | 0 <= i < |entries|
      ensures ds[i] == entries[i]
    {
      assert Obj(ds[i]) == xs[i] == Obj(entries[i]);
    }
    assert ds == entries;
  }

  lemma LinesSnoc(entries: seq<seq<(string, Value)>>, e: seq<(string, Value)>, prims: Primitives)
    ensures MapSeq(entries + [e], d => Line(d, prims)) == MapSeq(entries, d => Line(d, prims)) + [Line(e, prims)]
  {
  }

  /** Joining one more part adds a separator and the part. */
  lemma {:induction false} JoinSnoc(sep: string, parts: seq<string>, p: string)
    requires parts != []
    ensures Join(sep, parts + [p]) == Join(sep, parts) + sep + p
  {
    if |parts| == 1 {
      assert (parts + [p])[1..] == [p];
    } else {
      assert (parts + [p])[1..] == parts[1..] + [p];
      JoinSnoc(sep, parts[1..], p);
    }
  }

  /** Each further entry adds a newline and its "role: content" line. */
  lemma TranscriptGrows(entries: seq<seq<(string, Value)>>, e: seq<(string, Value)>, prims: Primitives)
    requires entries != []
    ensures var before := TranscriptOf(Arr(MapSeq(entries, d => Obj(d))), prims);
      var after := TranscriptOf(Arr(MapSeq(entries + [e], d => Obj(d))), prims);
      before.Ok? && before.value.Str? && after == Ok(Str(before.value.s + "\n" + Line(e, prims)))
  {
    var xs := MapSeq(entries, d => Obj(d));
    var ys := MapSeq(entries + [e], d => Obj(d));
    var lines := MapSeq(entries, d => Line(d, prims));
    assert TranscriptOf(Arr(xs), prims) == Ok(Str(Join("\n", lines))) by {
      DictsOfEntries(entries);
    }
    assert TranscriptOf(Arr(ys), prims) == Ok(Str(Join("\n", lines + [Line(e, prims)]))) by {
      DictsOfEntries(entries + [e]);
      LinesSnoc(entries, e, prims);
    }
    JoinSnoc("\n", lines, Line(e, prims));
  }

  /** The duration in seconds: `(end - start) / 1000` when both timestamps are truthy,
      None otherwise; TypeError when they cannot be subtracted. */
  function Duration(start: Value, end: Value): (r: Result<Value>)
    ensures r == Ok(Null) <==> !(Truthy(start) && Truthy(end))
    ensures Truthy(start) && Truthy(end) && start.Num? && end.Num? ==> r == Ok(Num((end.n - start.n) / 1000.0))
  {
    if Truthy(start) && Truthy(end) then
      match (NumberOf(start), NumberOf(end))
      case (Some(s), Some(e)) => Ok(Num((e - s) / 1000.0))
      case _ => Failed("TypeError")
    else Ok(Null)
  }

  /** The transcript, extracted fields and duration of a finished call. */
  datatype Ended = Ended(transcript: Value, extractedFields: seq<(string, string)>, durationSeconds: Value)

  /** What `call_ended` and `get_call_status` read from a finished call, in the order
      they read it: the first exception raised wins. */
  function Outcome(call: seq<(string, Value)>, prims: Primitives): (r: Result<Ended>)
    ensures r.Failed? <==>
      TranscriptOf(GetOr(call, "transcript_object", Arr([])), prims).Failed? ||
      ParseAnalysisFields(GetOr(call, "call_analysis", Obj([])), prims).Failed? ||
      Duration(GetOr(call, "start_timestamp", Null), GetOr(call, "end_timestamp", Null)).Failed?
    ensures r.Ok? ==> Ok(r.value.transcript) == TranscriptOf(GetOr(call, "transcript_object", Arr([])), prims)
    ensures r.Ok? ==> Ok(r.value.extractedFields) == ParseAnalysisFields(GetOr(call, "call_analysis", Obj([])), prims)
    ensures r.Ok? ==> (Ok(r.value.durationSeconds) ==
      Duration(GetOr(call, "start_timestamp", Null), GetOr(call, "end_timestamp", Null)))
  {
    match TranscriptOf(GetOr(call, "transcript_object", Arr([])), prims)
    case Failed(e) => Failed(e)
    case Ok(transcript) =>
      match ParseAnalysisFields(GetOr(call, "call_analysis", Obj([])), prims)
      case Failed(e) => Failed(e)
      case Ok(fields) =>
        match Duration(GetOr(call, "start_timestamp", Null), GetOr(call, "end_timestamp", Null))
        case Failed(e) => Failed(e)
        case Ok(duration) => Ok(Ended(transcript, fields, duration))
  }

  /** The extracted fields as the dict that is stored. */
  function FieldsValue(fields: seq<(string, string)>): Value
  {
    Obj(MapSeq(fields, (kv: (string, string)) => (kv.0, Str(kv.1))))
  }

  // ---------------------------------------------------------------------------
  // The call records

  /** `{"live_transcript": [], "status": status}` */
  function Seeded(status: string): (rec: seq<(string, Value)>)
    ensures Get(rec, "live_transcript") == Some(Arr([])) && Get(rec, "status") == Some(Str(status))
  {
    [("live_transcript", Arr([])), ("status", Str(status))]
  }

  /** The statuses a record can hold. */
  const Statuses: set<Value> := {Str("registered"), Str("unknown"), Str("in-progress"), Str("ended")}

  /** The keys a finished call's record holds beyond the seeded ones. */
  const EndedKeys: set<string> := {"status", "transcript", "extracted_fields", "duration_seconds"}

  /** Every record has a live transcript and one of the known statuses, and an ended
      call's record also has its transcript, extracted fields and duration. */
  predicate WellFormed(rec: seq<(string, Value)>)
  {
    Get(rec, "live_transcript").Some? &&
    Get(rec, "status").Some? && Get(rec, "status").value in Statuses &&
    (Get(rec, "status") == Some(Str("ended")) ==>
      Get(rec, "transcript").Some? && Get(rec, "extracted_fields").Some? && Get(rec, "duration_seconds").Some?)
  }

  /** Setting a key of a well-formed record keeps it well formed, as long as the
      live transcript stays and a new status is a known one short of "ended". */
  lemma WellFormedPut(rec: seq<(string, Value)>, key: string, v: Value)
    requires WellFormed(rec) && key != "live_transcript"
    requires key == "status" ==> v in Statuses - {Str("ended")}
    ensures WellFormed(Put(rec, key, v))
  {
    GetPut(rec, key, v, "live_transcript");
    GetPut(rec, key, v, "status");
    GetPut(rec, key, v, "transcript");
    GetPut(rec, key, v, "extracted_fields");
    GetPut(rec, key, v, "duration_seconds");
  }

  /** Every record of the table is well formed. */
  ghost predicate AllWellFormed(records: map<Value, seq<(string, Value)>>)
  {
    forall id :: id in records ==> WellFormed(records[id])
  }

  /** Storing a well-formed record keeps the table well formed. */
  lemma StoreWellFormed(records: map<Value, seq<(string, Value)>>, id: Value, rec: seq<(string, Value)>)
    requires AllWellFormed(records) && WellFormed(rec)
    ensures AllWellFormed(records[id := rec])
  {
  }

  /** `{"ok": True}` */
  const OkBody: seq<(string, Value)> := [("ok", Bool(true))]

  /** A value Python can use as a dict key. */
  predicate Hashable(v: Value)
  {
    !v.Arr? && !v.Obj?
  }

  /** `CallStatusResponse` */
  datatype CallStatus = CallStatus(status: Value, transcript: Value, liveTranscript: Value,
                                   extractedFields: Value, durationSeconds: Value)

  /** The response built from a cached record. */
  function CachedStatus(cached: seq<(string, Value)>): CallStatus
  {
    CallStatus(GetOr(cached, "status", Null), GetOr(cached, "transcript", Null),
               GetOr(cached, "live_transcript", Null), GetOr(cached, "extracted_fields", Null),
               GetOr(cached, "duration_seconds", Null))
  }

  /** The record cached when a poll finds the call ended. */
  function PolledRecord(ended: Ended, cached: seq<(string, Value)>): (rec: seq<(string, Value)>)
    ensures WellFormed(rec)
    ensures Get(rec, "status") == Some(Str("ended"))
    ensures Get(rec, "transcript") == Some(ended.transcript)
    ensures Get(rec, "extracted_fields") == Some(FieldsValue(ended.extractedFields))
    ensures Get(rec, "duration_seconds") == Some(ended.durationSeconds)
    ensures Get(rec, "live_transcript") == Some(GetOr(cached, "live_transcript", Arr([])))
  {
    var live := GetOr(cached, "live_transcript", Arr([]));
    var rest := [("extracted_fields", FieldsValue(ended.extractedFields)),
                 ("duration_seconds", ended.durationSeconds), ("live_transcript", live)];
    ThreeKeys("extracted_fields", FieldsValue(ended.extractedFields), "duration_seconds", ended.durationSeconds,
              "live_transcript", live);
    var rec := [("status", Str("ended")), ("transcript", ended.transcript)] + rest;
    assert rec[1..] == [("transcript", ended.transcript)] + rest && rec[1..][1..] == rest;
    rec
  }

  /** `_call_results`: the call records by call id. */
  class CallResults {
    var records: map<Value, seq<(string, Value)>>

    ghost predicate Valid()
      reads this
    {
      AllWellFormed(records)
    }

    constructor ()
      ensures records == map[] && Valid()
    {
      records := map[];
    }

    /** `_call_results.get(call_id, {})` */
    function Cached(callId: string): seq<(string, Value)>
      reads this
    {
      if Str(callId) in records then records[Str(callId)] else []
    }

    /** `initiate_call` after the call is created: the call's record is seeded as
        "registered"; the response needs a text call id and status. */
    method InitiateCall(created: seq<(string, Value)>) returns (r: Result<(string, string)>)
      requires Valid()
      modifies this
      ensures Valid()
      ensures var id := GetOr(created, "call_id", Str(""));
        var status := GetOr(created, "call_status", Str("registered"));
        if !Hashable(id) then records == old(records) && r == Failed("TypeError")
        else (records == old(records)[id := Seeded("registered")] &&
              r == (if id.Str? && status.Str? then Ok((id.s, status.s)) else Failed("ValidationError")))
    {
      var callId := GetOr(created, "call_id", Str(""));
      if !Hashable(callId) {
        return Failed("TypeError");
      }
      records := records[callId := Seeded("registered")];
      var status := GetOr(created, "call_status", Str("registered"));
      if callId.Str? && status.Str? {
        r := Ok((callId.s, status.s));
      } else {
        r := Failed("ValidationError");
      }
    }

    /** `get_call_status`: a cached "ended" or "error" record is answered without
        polling; otherwise the polled call is reported, and cached when it has ended.
        A failed poll reports the cached status, or "unknown". */
    method GetCallStatus(callId: string, poll: Result<seq<(string, Value)>>, prims: Primitives)
      returns (r: Result<CallStatus>)
      requires Valid()
      modifies this
      ensures Valid()
      ensures var cached := old(Cached(callId));
        Get(cached, "status") in {Some(Str("ended")), Some(Str("error"))} ==>
          records == old(records) && r == Ok(CachedStatus(cached))
      ensures var cached := old(Cached(callId));
        Get(cached, "status") !in {Some(Str("ended")), Some(Str("error"))} && poll.Failed? ==>
          records == old(records) && r == Ok(CallStatus(GetOr(cached, "status", Str("unknown")), Null, Null, Null, Null))
      ensures var cached := old(Cached(callId));
        Get(cached, "status") !in {Some(Str("ended")), Some(Str("error"))} && poll.Ok? &&
        GetOr(poll.value, "call_status", Str("unknown")) != Str("ended") ==>
          records == old(records) &&
          r == Ok(CallStatus(GetOr(poll.value, "call_status", Str("unknown")), Null,
                             GetOr(cached, "live_transcript", Null), Null, Null))
      ensures var cached := old(Cached(callId));
        Get(cached, "status") !in {Some(Str("ended")), Some(Str("error"))} && poll.Ok? &&
        GetOr(poll.value, "call_status", Str("unknown")) == Str("ended") ==>
          match Outcome(poll.value, prims)
          case Failed(e) => records == old(records) && r == Failed(e)
          case Ok(ended) =>
            records == old(records)[Str(callId) := PolledRecord(ended, cached)] &&
            r == Ok(CallStatus(Str("ended"), ended.transcript, GetOr(cached, "live_transcript", Null),
                               FieldsValue(ended.extractedFields), ended.durationSeconds))
    {
      var cached := Cached(callId);
      if Get(cached, "status") in {Some(Str("ended")), Some(Str("error"))} {
        return Ok(CachedStatus(cached));
      }
      if poll.Failed? {
        return Ok(CallStatus(GetOr(cached, "status", Str("unknown")), Null, Null, Null, Null));
      }
      var callData := poll.value;
      var status := GetOr(callData, "call_status", Str("unknown"));
      if status != Str("ended") {
        return Ok(CallStatus(status, Null, GetOr(cached, "live_transcript", Null), Null, Null));
      }
      var outcome := Outcome(callData, prims);
      if outcome.Failed? {
        return Failed(outcome.error);
      }
      var ended := outcome.value;
      records := records[Str(callId) := PolledRecord(ended, cached)];
      r := Ok(CallStatus(status, ended.transcript, GetOr(cached, "live_transcript", Null),
                         FieldsValue(ended.extractedFields), ended.durationSeconds));
    }

    /** `retell_webhook`: a body without a call id changes nothing; otherwise the call's
        record is seeded as "unknown" when it is new, and the event is applied to it.
        Every other record is left as it was. */
    method Webhook(body: Value, prims: Primitives) returns (r: Result<seq<(string, Value)>>)
      requires Valid()
      modifies this
      ensures Valid()
      ensures r.Ok? ==> r.value == OkBody
      ensures !body.Obj? || !GetOr(body.members, "call", Obj([])).Obj? ==>
        records == old(records) && r == Failed("AttributeError")
      ensures body.Obj? && GetOr(body.members, "call", Obj([])).Obj? ==>
        var id := GetOr(GetOr(body.members, "call", Obj([])).members, "call_id", Str(""));
        (!Truthy(id) ==> records == old(records) && r == Ok(OkBody)) &&
        (Truthy(id) && !Hashable(id) ==> records == old(records) && r == Failed("TypeError")) &&
        (Truthy(id) && Hashable(id) ==>
          records.Keys == old(records).Keys + {id} &&
          (forall other :: other in old(records) && other != id ==> records[other] == old(records)[other]))
      ensures body.Obj? && GetOr(body.members, "call", Obj([])).Obj? ==>
        var call := GetOr(body.members, "call", Obj([])).members;
        var id := GetOr(call, "call_id", Str(""));
        var before := if id in old(records) then old(records)[id] else Seeded("unknown");
        Truthy(id) && Hashable(id) ==>
          EventEffect(GetOr(body.members, "event", Str("")), call, prims, before, records[id], r)
    {
      if !body.Obj? {
        return Failed("AttributeError");
      }
      var event := GetOr(body.members, "event", Str(""));
      var call := GetOr(body.members, "call", Obj([]));
      if !call.Obj? {
        return Failed("AttributeError");
      }
      var callId := GetOr(call.members, "call_id", Str(""));
      if !Truthy(callId) {
        return Ok(OkBody);
      }
      if !Hashable(callId) {
        return Failed("TypeError");
      }
      if callId !in records {
        records := records[callId := Seeded("unknown")];
      }
      r := ApplyEvent(callId, event, call.members, prims);
    }

    /** The event dispatch of `retell_webhook` on an existing record: the record of
        `callId` changes as `EventEffect` says and every other record is kept. */
    method ApplyEvent(callId: Value, event: Value, call: seq<(string, Value)>, prims: Primitives)
      returns (r: Result<seq<(string, Value)>>)
      requires Valid() && callId in records
      modifies this
      ensures Valid()
      ensures records.Keys == old(records).Keys
      ensures forall other :: other in records && other != callId ==> records[other] == old(records)[other]
      ensures EventEffect(event, call, prims, old(records)[callId], records[callId], r)
    {
      if event == Str("call_started") {
        CallStarted(callId);
      } else if event == Str("call_ended") {
        var ended := CallEnded(callId, call, prims);
        if ended.Failed? {
          return Failed(ended.error);
        }
      } else if event == Str("call_analyzed") {
        var analyzed := ParseAnalysisFields(GetOr(call, "call_analysis", Obj([])), prims);
        if analyzed.Failed? {
          return Failed(analyzed.error);
        }
        CallAnalyzed(callId, analyzed.value);
      }
      r := Ok(OkBody);
    }

    /** `call_started`: the status becomes "in-progress"; nothing else changes. */
    method CallStarted(callId: Value)
      requires Valid() && callId in records
      modifies this
      ensures Valid()
      ensures records.Keys == old(records).Keys
      ensures forall other :: other in records && other != callId ==> records[other] == old(records)[other]
      ensures Get(records[callId], "status") == Some(Str("in-progress"))
      ensures forall k :: k != "status" ==> Get(records[callId], k) == Get(old(records)[callId], k)
    {
      var rec := Put(records[callId], "status", Str("in-progress"));
      WellFormedPut(records[callId], "status", Str("in-progress"));
      GetPutAll(records[callId], "status", Str("in-progress"));
      StoreWellFormed(records, callId, rec);
      records := records[callId := rec];
    }

    /** `call_ended`: the status becomes "ended" and the transcript, the extracted
        fields and the duration are recorded, every other key of the record kept; when
        reading the call raises, nothing changes. */
    method CallEnded(callId: Value, call: seq<(string, Value)>, prims: Primitives) returns (r: Result<Ended>)
      requires Valid() && callId in records
      modifies this
      ensures Valid()
      ensures r == Outcome(call, prims)
      ensures r.Failed? ==> records == old(records)
      ensures r.Ok? ==> (records.Keys == old(records).Keys &&
        (forall other :: other in records && other != callId ==> records[other] == old(records)[other]) &&
        Get(records[callId], "status") == Some(Str("ended")) &&
        Get(records[callId], "transcript") == Some(r.value.transcript) &&
        Get(records[callId], "extracted_fields") == Some(FieldsValue(r.value.extractedFields)) &&
        Get(records[callId], "duration_seconds") == Some(r.value.durationSeconds) &&
        forall k :: k !in EndedKeys ==> Get(records[callId], k) == Get(old(records)[callId], k))
    {
      r := Outcome(call, prims);
      if r.Failed? {
        return;
      }
      var old0 := records[callId];
      var rec := EndedUpdate(old0, r.value);
      StoreWellFormed(records, callId, rec);
      records := records[callId := rec];
    }

    /** `call_analyzed` once the analysis is read: non-empty extracted fields replace
        the recorded ones; the status and every other key are left as they were. */
    method CallAnalyzed(callId: Value, fields: seq<(string, string)>)
      requires Valid() && callId in records
      modifies this
      ensures Valid()
      ensures fields == [] ==> records == old(records)
      ensures fields != [] ==> (records.Keys == old(records).Keys &&
        (forall other :: other in records && other != callId ==> records[other] == old(records)[other]) &&
        Get(records[callId], "extracted_fields") == Some(FieldsValue(fields)) &&
        forall k :: k != "extracted_fields" ==> Get(records[callId], k) == Get(old(records)[callId], k))
    {
      if fields == [] {
        return;
      }
      var rec := AnalyzedUpdate(records[callId], fields);
      StoreWellFormed(records, callId, rec);
      records := records[callId := rec];
    }
  }

  /** What one webhook event does to a call's record `before`, giving `after`, and what
      it answers: "call_started" sets only the status; "call_ended" sets the four ended
      keys, or raises and changes nothing; "call_analyzed" stores non-empty extracted
      fields and nothing else, or raises and changes nothing; any other event changes
      nothing.  Every answer that is not an error is `{"ok": True}`. */
  ghost predicate EventEffect(event: Value, call: seq<(string, Value)>, prims: Primitives,
                              before: seq<(string, Value)>, after: seq<(string, Value)>,
                              r: Result<seq<(string, Value)>>)
  {
    if event == Str("call_started") then
      r == Ok(OkBody) && Get(after, "status") == Some(Str("in-progress")) &&
      forall k :: k != "status" ==> Get(after, k) == Get(before, k)
    else if event == Str("call_ended") then
      match Outcome(call, prims)
      case Failed(e) => r == Failed(e) && after == before
      case Ok(ended) =>
        r == Ok(OkBody) && Get(after, "status") == Some(Str("ended")) &&
        Get(after, "transcript") == Some(ended.transcript) &&
        Get(after, "extracted_fields") == Some(FieldsValue(ended.extractedFields)) &&
        Get(after, "duration_seconds") == Some(ended.durationSeconds) &&
        forall k :: k !in EndedKeys ==> Get(after, k) == Get(before, k)
    else if event == Str("call_analyzed") then
      match ParseAnalysisFields(GetOr(call, "call_analysis", Obj([])), prims)
      case Failed(e) => r == Failed(e) && after == before
      case Ok(fields) =>
        r == Ok(OkBody) &&
        (fields == [] ==> after == before) &&
        (fields != [] ==> Get(after, "extracted_fields") == Some(FieldsValue(fields))) &&
        (fields != [] ==> forall k :: k != "extracted_fields" ==> Get(after, k) == Get(before, k))
    else
      r == Ok(OkBody) && after == before
  }

  /** `record["extracted_fields"] = fields` */
  function AnalyzedUpdate(rec: seq<(string, Value)>, fields: seq<(string, string)>): (r: seq<(string, Value)>)
    requires WellFormed(rec)
    ensures WellFormed(r)
    ensures Get(r, "extracted_fields") == Some(FieldsValue(fields))
    ensures forall k :: k != "extracted_fields" ==> Get(r, k) == Get(rec, k)
  {
    var v := FieldsValue(fields);
    WellFormedPut(rec, "extracted_fields", v);
    GetPutAll(rec, "extracted_fields", v);
    Put(rec, "extracted_fields", v)
  }

  /** `record.update({"status": "ended", "transcript": …, "extracted_fields": …,
      "duration_seconds": …})` */
  function EndedUpdate(rec: seq<(string, Value)>, ended: Ended): (r: seq<(string, Value)>)
    requires WellFormed(rec)
    ensures WellFormed(r)
    ensures Get(r, "status") == Some(Str("ended"))
    ensures Get(r, "transcript") == Some(ended.transcript)
    ensures Get(r, "extracted_fields") == Some(FieldsValue(ended.extractedFields))
    ensures Get(r, "duration_seconds") == Some(ended.durationSeconds)
    ensures forall k :: k !in EndedKeys ==> Get(r, k) == Get(rec, k)
  {
    var r1 := Put(rec, "status", Str("ended"));
    var r2 := Put(r1, "transcript", ended.transcript);
    var r3 := Put(r2, "extracted_fields", FieldsValue(ended.extractedFields));
    var r4 := Put(r3, "duration_seconds", ended.durationSeconds);
    assert forall k :: (Get(r4, k) ==
      (if k == "duration_seconds" then Some(ended.durationSeconds)
       else if k == "extracted_fields" then Some(FieldsValue(ended.extractedFields))
       else if k == "transcript" then Some(ended.transcript)
       else if k == "status" then Some(Str("ended"))
       else Get(rec, k)))
    by {
      forall k
        ensures Get(r4, k) ==
          if k == "duration_seconds" then Some(ended.durationSeconds)
          else if k == "extracted_fields" then Some(FieldsValue(ended.extractedFields))
          else if k == "transcript" then Some(ended.transcript)
          else if k == "status" then Some(Str("ended"))
          else Get(rec, k)
      {
        GetPut(rec, "status", Str("ended"), k);
        GetPut(r1, "transcript", ended.transcript, k);
        GetPut(r2, "extracted_fields", FieldsValue(ended.extractedFields), k);
        GetPut(r3, "duration_seconds", ended.durationSeconds, k);
      }
    }
    r4
  }
}
