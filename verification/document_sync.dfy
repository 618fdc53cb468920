/** Reconciliation of document records: the list sync of `get_documents`
    (app.py:584-603) and the status update after an upload (app.py:647-655),
    with the upload's pre-flight checks (app.py:622-630).

    The list sync walks the response's items in order. Each step runs the
    lookup against the records written by the earlier steps, so an id that
    occurs twice is created once and then updated. */
module DocumentSync {
  import opened Wrappers
  import opened JsonValues
  import opened Signing
  import opened Ledger

  /** Iterating `api_response.get("items", [])`: an absent key or a list
      gives its items, an empty string or empty dict gives none; any other
      value raises, either because it cannot be iterated or because its
      elements (characters, keys) have no `get`. */
  function Items(m: Object): (r: Result<seq<Json>>)
    ensures r.Success? <==>
      "items" !in m || m["items"].JArr? ||
      m["items"] == JStr("") || m["items"] == JObj(map[])
    ensures r.Success? && "items" in m && m["items"].JArr? ==> r.value == m["items"].items
    ensures r.Success? && !("items" in m && m["items"].JArr?) ==> r.value == []
  {
    if "items" !in m then Success([])
    else match m["items"]
      case JArr(a) => Success(a)
      case JStr(s) => if s == "" then Success([]) else Failure("AttributeError: str has no get")
      case JObj(o) => if o == map[] then Success([]) else Failure("AttributeError: str has no get")
      case _ => Failure("TypeError: object is not iterable")
  }

  /** The id an item names, if it is an object. */
  function ItemId(item: Json): Json {
    if item.JObj? then Get(item.fields, "id") else JNull
  }

  /** Whether the item names document `d` (a non-empty id). */
  predicate Names(item: Json, d: Json) {
    Truthy(ItemId(item)) && ItemId(item) == d
  }

  /** One step of the sync. An item without an id is skipped; a known
      document has its status and type refreshed from the item when it has
      them; a new document defaults to type "Unknown" and status "PENDING". */
  function SyncStep(t: DocumentTable, vid: string, item: Json): (r: Result<DocumentTable>)
    ensures r.Success? <==> item.JObj?
    ensures r.Success? && !Truthy(ItemId(item)) ==> r.value == t
    ensures r.Success? && Truthy(ItemId(item)) ==>
      var key := (vid, ItemId(item));
      && r.value.Keys == t.Keys + {key}
      && (forall k :: k in t && k != key ==> r.value[k] == t[k])
  {
    var m :- AsObject(item, "item");
    var did := Get(m, "id");
    if !Truthy(did) then Success(t)
    else
      var key := (vid, did);
      if key in t then
        var stored := t[key];
        Success(t[key := stored.(status := GetOr(m, "status", stored.status),
                              documentType := GetOr(m, "type", stored.documentType))])
      else
        Success(t[key := Document(vid, did, GetOr(m, "type", JStr("Unknown")), GetOr(m, "status", JStr("PENDING")))])
  }

  /** The steps over all items, first item first. */
  function SyncItems(t: DocumentTable, vid: string, items: seq<Json>): (r: Result<DocumentTable>)
    decreases |items|
  {
    if |items| == 0 then Success(t)
    else
      var before :- SyncItems(t, vid, items[..|items| - 1]);
      SyncStep(before, vid, items[|items| - 1])
  }

  /** Whether some item names document `d`. */
  predicate Mentioned(items: seq<Json>, d: Json) {
    exists i :: 0 <= i < |items| && Names(items[i], d)
  }

  /** The value of `field` in the last item that names `d` and has the field. */
  function LastField(items: seq<Json>, d: Json, field: string): Option<Json>
    decreases |items|
  {
    if |items| == 0 then None
    else
      var item := items[|items| - 1];
      if Names(item, d) && field in item.fields then Some(item.fields[field])
      else LastField(items[..|items| - 1], d, field)
  }

  /** The value a field ends up with: the last item's value when some item
      naming the document has the field, else the stored value, else the
      default for a new record. */
  function Resolved(found: Option<Json>, stored: Option<Json>, default: Json): Json {
    if found.Some? then found.value else if stored.Some? then stored.value else default
  }

  function StoredStatus(t: DocumentTable, key: DocumentKey): Option<Json> {
    if key in t then Some(t[key].status) else None
  }

  function StoredType(t: DocumentTable, key: DocumentKey): Option<Json> {
    if key in t then Some(t[key].documentType) else None
  }

  /** An item list without any mention of `d` has no last value for it. */
  lemma {:induction false} LastFieldUnmentioned(items: seq<Json>, d: Json, field: string)
    requires !Mentioned(items, d)
    ensures LastField(items, d, field) == None
    decreases |items|
  {
    if |items| > 0 {
      var n := |items| - 1;
      assert !Names(items[n], d);
      assert !Mentioned(items[..n], d) by {
        forall i | 0 <= i < n ensures !Names(items[..n][i], d) {
          assert items[..n][i] == items[i];
        }
      }
      LastFieldUnmentioned(items[..n], d, field);
    }
  }

  /** The mentions of a list are those of its prefix and of its last item. */
  lemma MentionedSplit(items: seq<Json>, d: Json)
    requires |items| > 0
    ensures Mentioned(items, d) <==> Mentioned(items[..|items| - 1], d) || Names(items[|items| - 1], d)
  {
    var n := |items| - 1;
    if Mentioned(items, d) {
      var i :| 0 <= i < |items| && Names(items[i], d);
      if i < n { assert Names(items[..n][i], d); }
    }
    if Mentioned(items[..n], d) {
      var i :| 0 <= i < n && Names(items[..n][i], d);
      assert items[..n][i] == items[i];
    }
  }

  /** The sync fails exactly when some item is not an object; the whole
      sync is then abandoned. */
  lemma {:induction false} SyncItemsSucceeds(t: DocumentTable, vid: string, items: seq<Json>)
    ensures SyncItems(t, vid, items).Success? <==> forall i :: 0 <= i < |items| ==> items[i].JObj?
    decreases |items|
  {
    if |items| > 0 {
      var n := |items| - 1;
      SyncItemsSucceeds(t, vid, items[..n]);
      assert forall i :: 0 <= i < n ==> items[..n][i] == items[i];
    }
  }

  /** After a sync the table holds its old keys and one key per document the
      items mention, and every record not mentioned is untouched. */
  lemma {:induction false} SyncItemsFrame(t: DocumentTable, vid: string, items: seq<Json>)
    requires SyncItems(t, vid, items).Success?
    ensures var r := SyncItems(t, vid, items).value;
      && (forall k :: k in r <==> k in t || (k.0 == vid && Mentioned(items, k.1)))
      && (forall k :: k in t && !(k.0 == vid && Mentioned(items, k.1)) ==> r[k] == t[k])
    decreases |items|
  {
    if |items| > 0 {
      var n := |items| - 1;
      SyncItemsFrame(t, vid, items[..n]);
      forall d ensures Mentioned(items, d) <==> Mentioned(items[..n], d) || Names(items[n], d) {
        MentionedSplit(items, d);
      }
    }
  }

  /** The record a mentioned document ends with: the status and type of the
      last item that names it and has that field; failing that, its stored
      values, or "PENDING" and "Unknown" for a new record. A stored record
      keeps its other fields. */
  function Expected(t: DocumentTable, vid: string, items: seq<Json>, d: Json): Document {
    var key := (vid, d);
    var status := Resolved(LastField(items, d, "status"), StoredStatus(t, key), JStr("PENDING"));
    var kind := Resolved(LastField(items, d, "type"), StoredType(t, key), JStr("Unknown"));
    if key in t then t[key].(documentType := kind, status := status)
    else Document(vid, d, kind, status)
  }

  /** Each mentioned document ends with its `Expected` record. */
  lemma {:induction false} SyncItemsValue(t: DocumentTable, vid: string, items: seq<Json>, d: Json)
    requires SyncItems(t, vid, items).Success? && Mentioned(items, d)
    ensures var r := SyncItems(t, vid, items).value;
      (vid, d) in r && r[(vid, d)] == Expected(t, vid, items, d)
    decreases |items|
  {
    var n := |items| - 1;
    var prefix := items[..n];
    var before := SyncItems(t, vid, prefix).value;
    MentionedSplit(items, d);
    if Mentioned(prefix, d) {
      SyncItemsValue(t, vid, prefix, d);
    } else {
      LastFieldUnmentioned(prefix, d, "status");
      LastFieldUnmentioned(prefix, d, "type");
      SyncItemsFrame(t, vid, prefix);
    }
  }

  /** The sync as a whole: the frame above and the `Expected` record for
      every mentioned document. */
  lemma SyncItemsEffect(t: DocumentTable, vid: string, items: seq<Json>)
    requires SyncItems(t, vid, items).Success?
    ensures var r := SyncItems(t, vid, items).value;
      && (forall k :: k in r <==> k in t || (k.0 == vid && Mentioned(items, k.1)))
      && (forall k :: k in t && !(k.0 == vid && Mentioned(items, k.1)) ==> r[k] == t[k])
      && (forall d :: Mentioned(items, d) ==> r[(vid, d)] == Expected(t, vid, items, d))
  {
    SyncItemsFrame(t, vid, items);
    forall d | Mentioned(items, d)
      ensures SyncItems(t, vid, items).value[(vid, d)] == Expected(t, vid, items, d)
    {
      SyncItemsValue(t, vid, items, d);
    }
  }

  /** `get_documents`' merge: nothing unless the call succeeded; a response
      that is not an object, or whose items cannot be walked, makes the
      handler raise. */
  function SyncDocuments(t: DocumentTable, vid: string, ok: bool, resp: Json): (r: Result<DocumentTable>)
    ensures !ok ==> r == Success(t)
    ensures ok && !resp.JObj? ==> r.Failure?
    ensures ok && resp.JObj? && Items(resp.fields).Failure? ==> r.Failure?
    ensures ok && resp.JObj? && Items(resp.fields).Success? ==>
      r == SyncItems(t, vid, Items(resp.fields).value)
  {
    if !ok then Success(t)
    else
      var m :- AsObject(resp, "response");
      var items :- Items(m);
      SyncItems(t, vid, items)
  }

  /** A record produced by the sync is its own `Expected` record. */
  lemma ExpectedFixedPoint(t: DocumentTable, vid: string, items: seq<Json>, d: Json)
    requires SyncItems(t, vid, items).Success? && Mentioned(items, d)
    ensures var once := SyncItems(t, vid, items).value;
      (vid, d) in once && Expected(once, vid, items, d) == once[(vid, d)]
  {
    SyncItemsValue(t, vid, items, d);
  }

  /** Syncing the same item list twice gives what syncing it once gave. */
  lemma SyncItemsIdempotent(t: DocumentTable, vid: string, items: seq<Json>)
    requires SyncItems(t, vid, items).Success?
    ensures var once := SyncItems(t, vid, items).value;
      SyncItems(once, vid, items) == Success(once)
  {
    var once := SyncItems(t, vid, items).value;
    SyncItemsSucceeds(t, vid, items);
    SyncItemsSucceeds(once, vid, items);
    var twice := SyncItems(once, vid, items).value;
    SyncItemsFrame(t, vid, items);
    SyncItemsFrame(once, vid, items);
    assert twice.Keys == once.Keys;
    forall k | k in twice ensures k in once && twice[k] == once[k] {
      if k.0 == vid && Mentioned(items, k.1) {
        SyncItemsValue(once, vid, items, k.1);
        ExpectedFixedPoint(t, vid, items, k.1);
      }
    }
    assert twice == once;
  }

  /** A sync keeps every record under its own key. */
  lemma SyncItemsKeyed(t: DocumentTable, vid: string, items: seq<Json>)
    requires DocumentsKeyed(t) && SyncItems(t, vid, items).Success?
    ensures DocumentsKeyed(SyncItems(t, vid, items).value)
  {
  }

  // ---------------------------------------------------------------------
  // Upload
  // ---------------------------------------------------------------------

  /** The upload form's checks, in the handler's order: credentials, then a
      file part, then a file name. `file` is the uploaded file's name, `None`
      when the request has no file part. */
  function ValidateUpload(c: Credentials, file: Option<string>): (r: Option<string>)
    ensures r.None? <==> Present(c) && file.Some? && file.value != ""
    ensures !Present(c) ==> r == Some("Missing required credentials")
    ensures Present(c) && file.None? ==> r == Some("No file provided")
    ensures Present(c) && file == Some("") ==> r == Some("No file selected")
  {
    if !Present(c) then Some("Missing required credentials")
    else if file.None? then Some("No file provided")
    else if file.value == "" then Some("No file selected")
    else None
  }

  /** `upload_document`'s merge: an existing record takes the status the
      response reports, and "UPLOADED" when it reports none; an upload for an
      unknown document records nothing. */
  function RecordUpload(t: DocumentTable, vid: string, did: string, ok: bool, resp: Json)
    : (r: Result<DocumentTable>)
    ensures r.Failure? <==> ok && (vid, JStr(did)) in t && !resp.JObj?
    ensures r.Success? && !(ok && (vid, JStr(did)) in t) ==> r.value == t
    ensures r.Success? && ok && (vid, JStr(did)) in t ==>
      var key := (vid, JStr(did));
      && r.value.Keys == t.Keys
      && (forall k :: k in t && k != key ==> r.value[k] == t[k])
      && r.value[key].status == (if "status" in resp.fields then resp.fields["status"] else JStr("UPLOADED"))
      && r.value[key].documentType == t[key].documentType
      && r.value[key] == t[key].(status := r.value[key].status)
    ensures r.Success? && DocumentsKeyed(t) ==> DocumentsKeyed(r.value)
  {
    var key := (vid, JStr(did));
    if !ok || key !in t then Success(t)
    else
      var m :- AsObject(resp, "response");
      Success(t[key := t[key].(status := GetOr(m, "status", JStr("UPLOADED")))])
  }
}
