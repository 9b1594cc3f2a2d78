/** The carrier-schema table (backend/app/models/carrier_schema.py): the deduplication
    `list_schemas` performs on a scan, and the lookup `get_schema` performs.  The
    table itself is a sequence of items in scan order. */
module CarrierSchema {
  import opened Values

  /** A stored schema: its key attributes, and the whole item as a dict. */
  datatype SchemaItem = SchemaItem(carrierId: string, schemaVersion: string, item: seq<(string, Value)>)

  /** Where `latest` holds the carrier's entry, if it does. */
  function EntryOf(latest: seq<SchemaItem>, carrierId: string): (r: Option<nat>)
    ensures r.Some? ==> r.value < |latest| && latest[r.value].carrierId == carrierId
    ensures r.None? ==> forall i :: 0 <= i < |latest| ==> latest[i].carrierId != carrierId
  {
    if latest == [] then None
    else if latest[0].carrierId == carrierId then Some(0)
    else
      match EntryOf(latest[1..], carrierId)
      case None => None
      case Some(k) => Some(k + 1)
  }

  /** One iteration of the loop: `latest[cid] = item` when the carrier is new or the
      item's version is strictly greater; a dict keeps a replaced key in place. */
  function Upsert(latest: seq<SchemaItem>, item: SchemaItem): seq<SchemaItem>
  {
    match EntryOf(latest, item.carrierId)
    case None => latest + [item]
    case Some(k) =>
      if StrLt(latest[k].schemaVersion, item.schemaVersion) then latest[k := item] else latest
  }

  /** `list(latest.values())` after the loop has seen `items`. */
  function Latest(items: seq<SchemaItem>): seq<SchemaItem>
  {
    if items == [] then [] else Upsert(Latest(items[..|items| - 1]), items[|items| - 1])
  }

  /** `list_schemas`, over the items of the scan. */
  method ListSchemas(items: seq<SchemaItem>) returns (schemas: seq<SchemaItem>)
    ensures schemas == Latest(items)
  {
    var latest: seq<SchemaItem> := [];
    for i := 0 to |items|
      invariant latest == Latest(items[..i])
    {
      assert items[..i + 1][..i] == items[..i];
      var item := items[i];
      var k := EntryOf(latest, item.carrierId);
      if k.None? {
        latest := latest + [item];
      } else if StrLt(latest[k.value].schemaVersion, item.schemaVersion) {
        latest := latest[k.value := item];
      }
    }
    assert items[..|items|] == items;
    schemas := latest;
  }

  // ---------------------------------------------------------------------------
  // What the deduplication keeps

  predicate DistinctCarriers(latest: seq<SchemaItem>)
  {
    forall i, j :: 0 <= i < j < |latest| ==> latest[i].carrierId != latest[j].carrierId
  }

  /** No item of the carrier has a greater version. */
  predicate Greatest(o: SchemaItem, items: seq<SchemaItem>)
  {
    forall j :: 0 <= j < |items| && items[j].carrierId == o.carrierId ==>
      !StrLt(o.schemaVersion, items[j].schemaVersion)
  }

  /** `o` is an item of the scan, and every item of its carrier seen before it has a
      strictly smaller version. */
  predicate FirstSeen(o: SchemaItem, items: seq<SchemaItem>)
  {
    exists k :: 0 <= k < |items| && items[k] == o &&
      forall j :: 0 <= j < k && items[j].carrierId == o.carrierId ==>
        StrLt(items[j].schemaVersion, o.schemaVersion)
  }

  /** Every carrier of the scan has an entry. */
  predicate Covers(latest: seq<SchemaItem>, items: seq<SchemaItem>)
  {
    forall j :: 0 <= j < |items| ==> EntryOf(latest, items[j].carrierId).Some?
  }

  /** The loop invariant of `list_schemas`. */
  predicate Summarises(latest: seq<SchemaItem>, items: seq<SchemaItem>)
  {
    DistinctCarriers(latest) && Covers(latest, items) &&
    forall i :: 0 <= i < |latest| ==> Greatest(latest[i], items) && FirstSeen(latest[i], items)
  }

  /** `b` is at most `a`, and `a` is below `c`: then `b` is below `c`. */
  lemma StrLtBelow(a: string, b: string, c: string)
    requires !StrLt(a, b) && StrLt(a, c)
    ensures StrLt(b, c)
  {
    StrLtTotal(a, b);
    if a != b { StrLtTransitive(b, a, c); }
  }

  lemma FirstSeenInPrefix(o: SchemaItem, items: seq<SchemaItem>, item: SchemaItem)
    requires FirstSeen(o, items)
    ensures FirstSeen(o, items + [item])
  {
    var k :| 0 <= k < |items| && items[k] == o &&
      forall j :: 0 <= j < k && items[j].carrierId == o.carrierId ==>
        StrLt(items[j].schemaVersion, o.schemaVersion);
    assert (items + [item])[k] == o;
    assert forall j :: 0 <= j < k ==> (items + [item])[j] == items[j];
  }

  /** A carrier seen for the first time gets a new entry at the end. */
  lemma UpsertNew(latest: seq<SchemaItem>, items: seq<SchemaItem>, item: SchemaItem)
    requires Summarises(latest, items) && EntryOf(latest, item.carrierId).None?
    ensures Summarises(latest + [item], items + [item])
  {
    UnseenCarrier(latest, items, item);
    forall i | 0 <= i < |latest + [item]|
      ensures Greatest((latest + [item])[i], items + [item]) && FirstSeen((latest + [item])[i], items + [item])
    {
      if i < |latest| {
        assert (latest + [item])[i] == latest[i];
        FirstSeenInPrefix(latest[i], items, item);
      } else {
        NewEntry(items, item);
      }
    }
    UpsertNewCovers(latest, items, item);
  }

  /** A carrier without an entry has no item in the scan so far. */
  lemma UnseenCarrier(latest: seq<SchemaItem>, items: seq<SchemaItem>, item: SchemaItem)
    requires Covers(latest, items) && EntryOf(latest, item.carrierId).None?
    ensures forall j :: 0 <= j < |items| ==> items[j].carrierId != item.carrierId
  {
    forall j | 0 <= j < |items| ensures items[j].carrierId != item.carrierId {
      var k := EntryOf(latest, items[j].carrierId).value;
      assert latest[k].carrierId == items[j].carrierId;
    }
  }

  /** The first item of a carrier is its greatest and first seen so far. */
  lemma NewEntry(items: seq<SchemaItem>, item: SchemaItem)
    requires forall j :: 0 <= j < |items| ==> items[j].carrierId != item.carrierId
    ensures Greatest(item, items + [item]) && FirstSeen(item, items + [item])
  {
    StrLtIrreflexive(item.schemaVersion);
    assert (items + [item])[|items|] == item;
  }

  /** The new entry covers its carrier and the old entries cover theirs. */
  lemma UpsertNewCovers(latest: seq<SchemaItem>, items: seq<SchemaItem>, item: SchemaItem)
    requires Covers(latest, items)
    ensures Covers(latest + [item], items + [item])
  {
    var next := latest + [item];
    var all := items + [item];
    forall j | 0 <= j < |all| ensures EntryOf(next, all[j].carrierId).Some? {
      if j < |items| {
        var k := EntryOf(latest, items[j].carrierId).value;
        assert next[k].carrierId == all[j].carrierId;
      } else {
        assert next[|latest|].carrierId == all[j].carrierId;
      }
    }
  }

  /** A strictly greater version replaces the carrier's entry in place. */
  lemma UpsertNewer(latest: seq<SchemaItem>, items: seq<SchemaItem>, item: SchemaItem, k: nat)
    requires Summarises(latest, items) && EntryOf(latest, item.carrierId) == Some(k)
    requires StrLt(latest[k].schemaVersion, item.schemaVersion)
    ensures Summarises(latest[k := item], items + [item])
  {
    var next := latest[k := item];
    var all := items + [item];
    var old_ := latest[k];
    assert Greatest(old_, items);
    forall i | 0 <= i < |next|
      ensures Greatest(next[i], all) && FirstSeen(next[i], all)
    {
      if i != k {
        FirstSeenInPrefix(latest[i], items, item);
      } else {
        forall j | 0 <= j < |all| && all[j].carrierId == item.carrierId
          ensures !StrLt(item.schemaVersion, all[j].schemaVersion)
        {
          if j < |items| {
            StrLtBelow(old_.schemaVersion, items[j].schemaVersion, item.schemaVersion);
            StrLtAsymmetric(items[j].schemaVersion, item.schemaVersion);
          } else {
            StrLtIrreflexive(item.schemaVersion);
          }
        }
        forall j | 0 <= j < |items| && all[j].carrierId == item.carrierId
          ensures StrLt(all[j].schemaVersion, item.schemaVersion)
        {
          StrLtBelow(old_.schemaVersion, items[j].schemaVersion, item.schemaVersion);
        }
        assert all[|items|] == item;
      }
    }
    forall j | 0 <= j < |all| ensures EntryOf(next, all[j].carrierId).Some? {
      if j < |items| {
        var m := EntryOf(latest, items[j].carrierId).value;
        assert next[m].carrierId == all[j].carrierId;
      } else {
        assert next[k].carrierId == all[j].carrierId;
      }
    }
  }

  /** A version that is not strictly greater leaves everything as it was. */
  lemma UpsertOlder(latest: seq<SchemaItem>, items: seq<SchemaItem>, item: SchemaItem, k: nat)
    requires Summarises(latest, items) && EntryOf(latest, item.carrierId) == Some(k)
    requires !StrLt(latest[k].schemaVersion, item.schemaVersion)
    ensures Summarises(latest, items + [item])
  {
    var all := items + [item];
    forall i | 0 <= i < |latest|
      ensures Greatest(latest[i], all) && FirstSeen(latest[i], all)
    {
      FirstSeenInPrefix(latest[i], items, item);
    }
    forall j | 0 <= j < |all| ensures EntryOf(latest, all[j].carrierId).Some? {
      if j == |items| { assert latest[k].carrierId == all[j].carrierId; }
    }
  }

  /** `list_schemas` returns one item per carrier of the scan, and that item is one of
      the scan's, with its carrier's greatest version in string order; among items
      with equal versions the first seen is kept. */
  lemma {:induction false} LatestPerCarrier(items: seq<SchemaItem>)
    ensures Summarises(Latest(items), items)
  {
    if items != [] {
      var n := |items| - 1;
      LatestPerCarrier(items[..n]);
      var latest := Latest(items[..n]);
      assert items[..n] + [items[n]] == items;
      match EntryOf(latest, items[n].carrierId)
      case None => UpsertNew(latest, items[..n], items[n]);
      case Some(k) =>
        if StrLt(latest[k].schemaVersion, items[n].schemaVersion) {
          UpsertNewer(latest, items[..n], items[n], k);
        } else {
          UpsertOlder(latest, items[..n], items[n], k);
        }
    }
  }

  /** `get_schema`: an exact key lookup for a given version; for a blank version the
      query in descending version order, limit one, which is the carrier's entry in
      the deduplicated list. */
  function GetSchema(table: seq<SchemaItem>, carrierId: string, version: string): Option<SchemaItem>
  {
    if version != "" then FindVersion(table, carrierId, version)
    else
      match EntryOf(Latest(table), carrierId)
      case None => None
      case Some(k) => Some(Latest(table)[k])
  }

  /** `get_item` on the key (carrier_id, schema_version). */
  function FindVersion(table: seq<SchemaItem>, carrierId: string, version: string): (r: Option<SchemaItem>)
    ensures r.Some? ==> r.value in table && r.value.carrierId == carrierId && r.value.schemaVersion == version
    ensures r.None? ==> forall i :: 0 <= i < |table| ==>
      table[i].carrierId != carrierId || table[i].schemaVersion != version
  {
    if table == [] then None
    else if table[0].carrierId == carrierId && table[0].schemaVersion == version then Some(table[0])
    else FindVersion(table[1..], carrierId, version)
  }

  /** Without a version, the schema found is the carrier's greatest version; it is
      found exactly when the table has the carrier. */
  lemma LatestSchemaIsGreatest(table: seq<SchemaItem>, carrierId: string)
    ensures GetSchema(table, carrierId, "").Some? <==>
      exists j :: 0 <= j < |table| && table[j].carrierId == carrierId
    ensures GetSchema(table, carrierId, "").Some? ==>
      var s := GetSchema(table, carrierId, "").value;
      s in table && s.carrierId == carrierId && Greatest(s, table)
  {
    LatestPerCarrier(table);
    var latest := Latest(table);
    if GetSchema(table, carrierId, "").Some? {
      var k := EntryOf(latest, carrierId).value;
      assert FirstSeen(latest[k], table);
    }
  }
}
