/** The application lifecycle (backend/app/services/application_service.py) over the
    applications table: a draft is created against a stored schema, saved by merging
    data while it is a draft, validated against its schema, and submitted when valid. */
module ApplicationService {
  import opened Values
  import opened BackendValidators
  import opened BackendValidation
  import opened CarrierSchema

  /** A stored application item. */
  datatype Application = Application(
    applicationId: string,
    carrierId: string,
    schemaVersion: string,
    status: string,
    data: map<string, Value>,
    createdAt: string,
    updatedAt: string,
    submittedAt: Option<string>)

  /** The item `create_application` writes. */
  function Draft(applicationId: string, carrierId: string, schemaVersion: string, now: string): Application
  {
    Application(applicationId, carrierId, schemaVersion, "draft", map[], now, now, None)
  }

  /** `existing_data.update(data)`: incoming keys win, other existing keys stay. */
  function Merge(existing: map<string, Value>, incoming: map<string, Value>): (merged: map<string, Value>)
    ensures merged.Keys == existing.Keys + incoming.Keys
    ensures forall k :: k in incoming ==> merged[k] == incoming[k]
    ensures forall k :: k in existing && k !in incoming ==> merged[k] == existing[k]
  {
    existing + incoming
  }

  /** What `validate` returns: the verdict and errors, or the lookup that failed. */
  datatype Checked = Checked(valid: bool, errors: seq<FieldError>) | CheckFailed(message: string)

  /** What `submit` returns. */
  datatype SubmitOutcome =
    | Submitted(app: Application)
    | Rejected(errors: seq<FieldError>)   // "Validation failed"
    | NotSubmitted(message: string)

  /** `"Schema not found for carrier '<carrier_id>' version '<schema_version>'"` */
  function SchemaNotFound(carrierId: string, schemaVersion: string): string
  {
    "Schema not found for carrier '" + carrierId + "' version '" + schemaVersion + "'"
  }

  /** `validate`, as a function of the two tables. */
  function CheckOf(applications: map<string, Application>, schemas: seq<SchemaItem>, applicationId: string,
                   prims: Primitives): Result<Checked>
  {
    if applicationId !in applications then Ok(CheckFailed("Application not found"))
    else
      var app := applications[applicationId];
      match GetSchema(schemas, app.carrierId, app.schemaVersion)
      case None => Ok(CheckFailed("Carrier schema not found"))
      case Some(schema) =>
        match ApplicationErrors(schema.item, app.data, prims)
        case Failed(e) => Failed(e)
        case Ok(errors) => Ok(Checked(errors == [], errors))
  }

  /** What `submit` answers, as a function of the two tables: the validation's
      failure, its lookup message, its errors, or the application marked submitted. */
  function SubmitOutcomeOf(applications: map<string, Application>, schemas: seq<SchemaItem>,
                           applicationId: string, prims: Primitives, now: string): Result<SubmitOutcome>
  {
    match CheckOf(applications, schemas, applicationId, prims)
    case Failed(e) => Failed(e)
    case Ok(CheckFailed(m)) => Ok(NotSubmitted(m))
    case Ok(Checked(valid, errors)) =>
      if !valid then Ok(Rejected(errors))
      else Ok(Submitted(Apply(applications[applicationId], MarkSubmitted(now))))
  }

  class ApplicationStore {
    /** The applications table, by `application_id`. */
    var applications: map<string, Application>
    /** The carrier-schema table, which this service only reads. */
    const schemas: seq<SchemaItem>

    constructor(schemas: seq<SchemaItem>)
      ensures this.schemas == schemas && applications == map[]
    {
      this.schemas := schemas;
      applications := map[];
    }

    /** `get_application` */
    function GetApplication(applicationId: string): Option<Application>
      reads this
    {
      if applicationId in applications then Some(applications[applicationId]) else None
    }

    /** `create_application`: a draft under a fresh id, when the schema exists. */
    method CreateApplication(carrierId: string, schemaVersion: string, newId: string, now: string)
      returns (app: Option<Application>, err: Option<string>)
      modifies this
      ensures GetSchema(schemas, carrierId, schemaVersion).None? ==>
        app.None? && err == Some(SchemaNotFound(carrierId, schemaVersion)) && applications == old(applications)
      ensures GetSchema(schemas, carrierId, schemaVersion).Some? ==>
        err.None? && app == Some(Draft(newId, carrierId, schemaVersion, now)) &&
        applications == old(applications)[newId := app.value]
    {
      var schema := GetSchema(schemas, carrierId, schemaVersion);
      if schema.None? {
        return None, Some(SchemaNotFound(carrierId, schemaVersion));
      }
      var item := Draft(newId, carrierId, schemaVersion, now);
      applications := applications[newId := item];
      return Some(item), None;
    }

    /** `save_application`: merges the data into a draft; an unknown or submitted
        application is left as it is. */
    method SaveApplication(applicationId: string, data: map<string, Value>, now: string)
      returns (updated: Option<Application>, err: Option<string>)
      modifies this
      ensures applicationId !in old(applications) ==>
        updated.None? && err == Some("Application not found") && applications == old(applications)
      ensures applicationId in old(applications) && old(applications)[applicationId].status == "submitted" ==>
        updated.None? && err == Some("Cannot modify a submitted application") && applications == old(applications)
      ensures applicationId in old(applications) && old(applications)[applicationId].status != "submitted" ==>
        var app := old(applications)[applicationId];
        err.None? &&
        updated == Some(app.(data := Merge(app.data, data), updatedAt := now)) &&
        applications == old(applications)[applicationId := updated.value]
    ensures applicationId in old(applications) ==>
      applications == old(applications)[applicationId := Apply(old(applications)[applicationId], Save(data, now))]
    {
      if applicationId !in applications {
        return None, Some("Application not found");
      }
      var app := applications[applicationId];
      if app.status == "submitted" {
        return None, Some("Cannot modify a submitted application");
      }
      var existing := app.data;
      existing := existing + data;
      var item := app.(data := existing, updatedAt := now);
      applications := applications[applicationId := item];
      return Some(item), None;
    }

    /** `validate`: the application's data against its carrier schema. */
    method Validate(applicationId: string, prims: Primitives) returns (r: Result<Checked>)
      ensures r == CheckOf(applications, schemas, applicationId, prims)
    {
      if applicationId !in applications {
        return Ok(CheckFailed("Application not found"));
      }
      var app := applications[applicationId];
      var schema := GetSchema(schemas, app.carrierId, app.schemaVersion);
      if schema.None? {
        return Ok(CheckFailed("Carrier schema not found"));
      }
      var outcome := ValidateApplication(schema.value.item, app.data, prims);
      if outcome.Failed? {
        return Failed(outcome.error);
      }
      return Ok(Checked(outcome.value.0, outcome.value.1));
    }

    /** `submit`: validates, then marks a valid application submitted; only a
        submission changes the table, and only at that application. */
    method Submit(applicationId: string, prims: Primitives, now: string) returns (r: Result<SubmitOutcome>)
      modifies this
      ensures r == SubmitOutcomeOf(old(applications), schemas, applicationId, prims, now)
      ensures r.Ok? && r.value.Submitted? ==> applications == old(applications)[applicationId := r.value.app]
      ensures !(r.Ok? && r.value.Submitted?) ==> applications == old(applications)
    {
      var check := Validate(applicationId, prims);
      if check.Failed? {
        return Failed(check.error);
      }
      if check.value.CheckFailed? {
        return Ok(NotSubmitted(check.value.message));
      }
      if !check.value.valid {
        return Ok(Rejected(check.value.errors));
      }
      var app := applications[applicationId];
      var done := app.(status := "submitted", submittedAt := Some(now), updatedAt := now);
      applications := applications[applicationId := done];
      return Ok(Submitted(done));
    }
  }

  // ---------------------------------------------------------------------------
  // Properties of the lifecycle

  /** The transitions the service makes on one stored application. */
  datatype Step = Save(data: map<string, Value>, now: string) | MarkSubmitted(now: string)

  /** What one step does to an application: a save changes only a draft's data and
      timestamp; a submission sets the status and the submission time. */
  function Apply(app: Application, step: Step): Application
  {
    match step
    case Save(data, now) =>
      if app.status == "submitted" then app else app.(data := Merge(app.data, data), updatedAt := now)
    case MarkSubmitted(now) => app.(status := "submitted", submittedAt := Some(now), updatedAt := now)
  }

  function ApplyAll(app: Application, steps: seq<Step>): Application
    decreases |steps|
  {
    if steps == [] then app else ApplyAll(Apply(app, steps[0]), steps[1..])
  }

  /** Once submitted, an application's data never changes again, whatever is saved or
      submitted after. */
  lemma {:induction false} SubmittedDataIsFrozen(app: Application, steps: seq<Step>)
    requires app.status == "submitted"
    ensures ApplyAll(app, steps).data == app.data
    ensures ApplyAll(app, steps).status == "submitted"
    decreases |steps|
  {
    if steps != [] {
      SubmittedDataIsFrozen(Apply(app, steps[0]), steps[1..]);
    }
  }

  /** Saving the maps `saves` in order. */
  function Saves(saves: seq<map<string, Value>>, now: string): seq<Step>
  {
    MapSeq(saves, (d: map<string, Value>) => Save(d, now))
  }

  /** A draft's data after saves is the saved maps merged in order: the last save
      that holds a key decides its value, and keys no save holds keep the draft's. */
  lemma SavesMergeInOrder(app: Application, saves: seq<map<string, Value>>, now: string, k: string)
    requires app.status != "submitted"
    ensures var end := ApplyAll(app, Saves(saves, now));
      end.status == app.status &&
      (k in end.data <==> k in app.data || exists i :: 0 <= i < |saves| && k in saves[i]) &&
      ((forall i :: 0 <= i < |saves| ==> k !in saves[i]) && k in app.data ==> end.data[k] == app.data[k]) &&
      (forall i :: 0 <= i < |saves| && k in saves[i] && (forall j :: i < j < |saves| ==> k !in saves[j]) ==>
        k in end.data && end.data[k] == saves[i][k])
  {
    SavedKeys(app, saves, now, k);
    forall i | 0 <= i < |saves| && k in saves[i] && (forall j :: i < j < |saves| ==> k !in saves[j])
      ensures var end := ApplyAll(app, Saves(saves, now)); k in end.data && end.data[k] == saves[i][k]
    {
      LastSaveDecides(app, saves, now, k, i);
    }
  }

  /** The keys after saves, and the values of keys no save holds. */
  lemma {:induction false} SavedKeys(app: Application, saves: seq<map<string, Value>>, now: string, k: string)
    requires app.status != "submitted"
    ensures var end := ApplyAll(app, Saves(saves, now));
      end.status == app.status &&
      (k in end.data <==> k in app.data || exists i :: 0 <= i < |saves| && k in saves[i]) &&
      ((forall i :: 0 <= i < |saves| ==> k !in saves[i]) && k in app.data ==> end.data[k] == app.data[k])
    decreases |saves|
  {
    var steps := Saves(saves, now);
    if saves != [] {
      var next := Apply(app, steps[0]);
      assert steps[1..] == Saves(saves[1..], now);
      SavedKeys(next, saves[1..], now, k);
      assert forall i :: 1 <= i < |saves| ==> saves[1..][i - 1] == saves[i];
      if exists i :: 0 <= i < |saves| && k in saves[i] {
        var i :| 0 <= i < |saves| && k in saves[i];
        if i > 0 { assert k in saves[1..][i - 1]; }
      }
    }
  }

  /** The last save that holds a key decides its value. */
  lemma {:induction false} LastSaveDecides(app: Application, saves: seq<map<string, Value>>, now: string, k: string, i: nat)
    requires app.status != "submitted" && i < |saves| && k in saves[i]
    requires forall j :: i < j < |saves| ==> k !in saves[j]
    ensures var end := ApplyAll(app, Saves(saves, now)); k in end.data && end.data[k] == saves[i][k]
    decreases |saves|
  {
    var steps := Saves(saves, now);
    var next := Apply(app, steps[0]);
    assert steps[1..] == Saves(saves[1..], now);
    if i == 0 {
      assert forall j :: 0 <= j < |saves| - 1 ==> saves[1..][j] == saves[j + 1];
      SavedKeys(next, saves[1..], now, k);
    } else {
      assert forall j :: i - 1 < j < |saves| - 1 ==> saves[1..][j] == saves[j + 1];
      LastSaveDecides(next, saves[1..], now, k, i - 1);
    }
  }

  /** A submission goes through exactly when the application and its schema exist
      and the validator finds no error in the data, and then only the status and the
      timestamps change; a rejection carries the validator's errors, never none. */
  lemma SubmissionNeedsValidData(applications: map<string, Application>, schemas: seq<SchemaItem>,
                                 applicationId: string, prims: Primitives, now: string)
    ensures var r := SubmitOutcomeOf(applications, schemas, applicationId, prims, now);
      (r.Ok? && r.value.Submitted?) <==>
        applicationId in applications &&
        var app := applications[applicationId];
        var schema := GetSchema(schemas, app.carrierId, app.schemaVersion);
        schema.Some? && ApplicationErrors(schema.value.item, app.data, prims) == Ok([])
    ensures var r := SubmitOutcomeOf(applications, schemas, applicationId, prims, now);
      r.Ok? && r.value.Submitted? ==>
        var app := applications[applicationId];
        r.value.app == app.(status := "submitted", submittedAt := Some(now), updatedAt := now)
    ensures var r := SubmitOutcomeOf(applications, schemas, applicationId, prims, now);
      r.Ok? && r.value.Rejected? ==>
        applicationId in applications && r.value.errors != [] &&
        var app := applications[applicationId];
        var schema := GetSchema(schemas, app.carrierId, app.schemaVersion);
        schema.Some? && ApplicationErrors(schema.value.item, app.data, prims) == Ok(r.value.errors)
  {
  }
}
