/** Reconciliation of verification records (app.py:450-486, 530-542,
    722-729), the cascading delete (app.py:353-361), the pre-flight checks of
    the sandbox state update (app.py:688-699) and the approved-verification
    queries (app.py:745-772).

    Every merge runs after the outbound call, on its decoded response. A
    response of an unexpected shape makes the Python handler raise before it
    commits; such a run is a `Failure` here and the table is left as it was. */
module VerificationSync {
  import opened Wrappers
  import opened JsonValues
  import opened Fields
  import opened Signing
  import opened Ledger

  /** `api_response.get("attributes", {}).get("client", {})`: an absent level
      reads as an empty dict, a level that is present but not a dict raises. */
  function ClientData(m: Object): (r: Result<Object>)
    ensures r.Success? <==>
      "attributes" !in m ||
      (m["attributes"].JObj? && ("client" !in m["attributes"].fields || m["attributes"].fields["client"].JObj?))
    ensures r.Success? && "attributes" in m && "client" in m["attributes"].fields ==>
      r.value == m["attributes"].fields["client"].fields
    ensures r.Success? && ("attributes" !in m || "client" !in m["attributes"].fields) ==> r.value == map[]
  {
    var attributes :- SubObject(m, "attributes");
    SubObject(attributes, "client")
  }

  /** The identifier a response names: its `id` when it is an object. */
  function ResponseId(resp: Json): Json {
    if resp.JObj? then Get(resp.fields, "id") else JNull
  }

  /** The merge into an existing record (app.py:461-466 and 533-541): the
      status is replaced when the response has one, the user id only by a
      non-empty client id, and the raw response always. */
  function Refreshed(v: Verification, m: Object, clientId: Json, resp: Json): (w: Verification)
    ensures "status" in m ==> w.status == m["status"]
    ensures "status" !in m ==> w.status == v.status
    ensures w.userId == (if Truthy(clientId) then clientId else v.userId)
    ensures w.rawResponse == resp
    ensures w == v.(status := w.status, userId := w.userId, rawResponse := resp)
  {
    v.(status := GetOr(m, "status", v.status),
       userId := if Truthy(clientId) then clientId else v.userId,
       rawResponse := resp)
  }

  /** A new record (app.py:468-482): descriptive fields from the caller's
      form, status from the response or "CREATED", user id as the response
      gives it, even when empty. */
  function Created(id: Json, clientType: Json, form: Object, m: Object, clientId: Json,
                   useSandbox: bool, resp: Json): (v: Verification)
    ensures v.verificationId == id && v.clientType == clientType && v.userId == clientId
    ensures v.firstName == GetOr(form, "first_name", Empty) && v.lastName == GetOr(form, "last_name", Empty)
    ensures v.documentNumber == GetOr(form, "document_number", Empty)
    ensures v.externalReference == GetOr(form, "external_reference", Empty)
    ensures "status" in m ==> v.status == m["status"]
    ensures "status" !in m ==> v.status == JStr("CREATED")
    ensures (v.environment == Sandbox <==> useSandbox) && v.rawResponse == resp
  {
    Verification(id, clientId, clientType,
                 GetOr(form, "first_name", Empty), GetOr(form, "last_name", Empty),
                 GetOr(form, "document_number", Empty), GetOr(form, "external_reference", Empty),
                 GetOr(m, "status", JStr("CREATED")), EnvironmentOf(useSandbox), resp)
  }

  /** Whether a successful creation response makes the handler raise: it is
      not an object, or it names an id and its client data is malformed. */
  predicate CreationCrashes(resp: Json) {
    !resp.JObj? || (Truthy(Get(resp.fields, "id")) && ClientData(resp.fields).Failure?)
  }

  /** The merge of a creation response (app.py:450-486). Nothing is recorded
      unless the call succeeded and the response names a non-empty id; the
      record under that id is refreshed when it exists and created otherwise;
      no other record changes. */
  function RecordVerification(t: VerificationTable, clientType: Json, form: Object, useSandbox: bool,
                              ok: bool, resp: Json): (r: Result<VerificationTable>)
    ensures !ok ==> r == Success(t)
    ensures r.Failure? <==> ok && CreationCrashes(resp)
    ensures r.Success? && VerificationsKeyed(t) ==> VerificationsKeyed(r.value)
  {
    if !ok then Success(t)
    else
      var m :- AsObject(resp, "response");
      var id := Get(m, "id");
      if !Truthy(id) then Success(t)
      else
        var client :- ClientData(m);
        var clientId := Get(client, "id");
        if id in t then Success(t[id := Refreshed(t[id], m, clientId, resp)])
        else Success(t[id := Created(id, clientType, form, m, clientId, useSandbox, resp)])
  }

  /** What a creation response does to the table: nothing unless the call
      succeeded and the response names a non-empty id; otherwise the record
      under that id is refreshed or created, and no other record changes. */
  lemma RecordVerificationEffect(t: VerificationTable, clientType: Json, form: Object, useSandbox: bool,
                                 ok: bool, resp: Json)
    requires RecordVerification(t, clientType, form, useSandbox, ok, resp).Success?
    ensures var r := RecordVerification(t, clientType, form, useSandbox, ok, resp).value;
      && (!(ok && Truthy(ResponseId(resp))) ==> r == t)
      && (ok && Truthy(ResponseId(resp)) ==>
          var id := ResponseId(resp);
          && r.Keys == t.Keys + {id}
          && (forall k :: k in t && k != id ==> r[k] == t[k])
          && r[id].rawResponse == resp
          && ("status" in resp.fields ==> r[id].status == resp.fields["status"])
          && ("status" !in resp.fields && id in t ==> r[id].status == t[id].status)
          && ("status" !in resp.fields && id !in t ==> r[id].status == JStr("CREATED"))
          && var clientId := Get(ClientData(resp.fields).value, "id");
          && (id in t ==> r[id] == Refreshed(t[id], resp.fields, clientId, resp))
          && (id !in t ==> r[id] == Created(id, clientType, form, resp.fields, clientId, useSandbox, resp)))
  {
  }

  /** In a well-keyed table, after a creation response naming an id, exactly
      one record has that verification id, and the table stays well keyed. */
  lemma RecordVerificationUnique(t: VerificationTable, clientType: Json, form: Object, useSandbox: bool,
                                 resp: Json)
    requires VerificationsKeyed(t)
    requires RecordVerification(t, clientType, form, useSandbox, true, resp).Success?
    requires Truthy(ResponseId(resp))
    ensures var r := RecordVerification(t, clientType, form, useSandbox, true, resp).value;
      var id := ResponseId(resp);
      && VerificationsKeyed(r)
      && id in r && r[id].verificationId == id
      && (forall k :: k in r && r[k].verificationId == id ==> k == id)
  {
  }

  /** A record that already reflects a response is a fixed point of the
      merge of that response. */
  lemma RefreshedFixedPoint(v: Verification, m: Object, clientId: Json, resp: Json)
    requires v.rawResponse == resp
    requires "status" in m ==> v.status == m["status"]
    requires Truthy(clientId) ==> v.userId == clientId
    ensures Refreshed(v, m, clientId, resp) == v
  {
  }

  /** A creation response replayed on a table whose record already reflects
      it leaves the table as it is. */
  lemma ReplayOnReflectingRecord(t: VerificationTable, clientType: Json, form: Object,
                                 useSandbox: bool, resp: Json)
    requires resp.JObj? && ClientData(resp.fields).Success?
    requires var id := Get(resp.fields, "id");
      && Truthy(id) && id in t
      && t[id].rawResponse == resp
      && ("status" in resp.fields ==> t[id].status == resp.fields["status"])
      && (Truthy(Get(ClientData(resp.fields).value, "id")) ==> t[id].userId == Get(ClientData(resp.fields).value, "id"))
    ensures RecordVerification(t, clientType, form, useSandbox, true, resp) == Success(t)
  {
    var id := Get(resp.fields, "id");
    RefreshedFixedPoint(t[id], resp.fields, Get(ClientData(resp.fields).value, "id"), resp);
    assert t[id := t[id]] == t;
  }

  /** Replaying a creation response changes nothing further. */
  lemma RecordVerificationIdempotent(t: VerificationTable, clientType: Json, form: Object,
                                     useSandbox: bool, ok: bool, resp: Json)
    requires RecordVerification(t, clientType, form, useSandbox, ok, resp).Success?
    ensures var once := RecordVerification(t, clientType, form, useSandbox, ok, resp).value;
      RecordVerification(once, clientType, form, useSandbox, ok, resp) == Success(once)
  {
    if ok && Truthy(ResponseId(resp)) {
      ReplayOnReflectingRecord(RecordVerification(t, clientType, form, useSandbox, ok, resp).value,
                               clientType, form, useSandbox, resp);
    }
  }

  /** A user id, once known, is never cleared by a later creation response. */
  lemma RecordVerificationKeepsUserId(t: VerificationTable, clientType: Json, form: Object,
                                      useSandbox: bool, ok: bool, resp: Json, k: Json)
    requires RecordVerification(t, clientType, form, useSandbox, ok, resp).Success?
    requires k in t && Truthy(t[k].userId)
    ensures var after := RecordVerification(t, clientType, form, useSandbox, ok, resp).value;
      k in after && Truthy(after[k].userId)
  {
  }

  /** The fetch handler's merge (app.py:530-542): only an existing record is
      touched, with the same rule as a creation response. */
  function RefreshVerification(t: VerificationTable, vid: string, ok: bool, resp: Json)
    : (r: Result<VerificationTable>)
    ensures r.Failure? <==> ok && JStr(vid) in t && (!resp.JObj? || ClientData(resp.fields).Failure?)
    ensures r.Success? && !(ok && JStr(vid) in t) ==> r.value == t
    ensures r.Success? && ok && JStr(vid) in t ==>
      && r.value.Keys == t.Keys
      && (forall k :: k in t && k != JStr(vid) ==> r.value[k] == t[k])
      && r.value[JStr(vid)] ==
           Refreshed(t[JStr(vid)], resp.fields, Get(ClientData(resp.fields).value, "id"), resp)
  {
    var key := JStr(vid);
    if !ok || key !in t then Success(t)
    else
      var m :- AsObject(resp, "response");
      var client :- ClientData(m);
      Success(t[key := Refreshed(t[key], m, Get(client, "id"), resp)])
  }

  /** A fetch for an id with no local record leaves the table as it was. */
  lemma RefreshUnknownIsNoOp(t: VerificationTable, vid: string, ok: bool, resp: Json)
    requires JStr(vid) !in t
    ensures RefreshVerification(t, vid, ok, resp) == Success(t)
  {
  }

  /** A stale response is trusted: a record the provider approved goes back to
      whatever status a later response reports. */
  lemma StatusRegressionAccepted(t: VerificationTable, vid: string, m: Object)
    requires JStr(vid) in t && t[JStr(vid)].status == JStr("APPROVED")
    requires "status" in m && m["status"] == JStr("CREATED") && "attributes" !in m
    ensures var r := RefreshVerification(t, vid, true, JObj(m));
      r.Success? && r.value[JStr(vid)].status == JStr("CREATED")
  {
  }

  // ---------------------------------------------------------------------
  // Sandbox state update
  // ---------------------------------------------------------------------

  /** The checks made before the state update is sent, in the order the
      handler makes them; `None` when the request may proceed. */
  function ValidateStateUpdate(c: Credentials, status: Json, statusDetail: Json, useSandbox: bool)
    : (r: Option<string>)
    ensures r.None? <==> Present(c) && Truthy(status) && Truthy(statusDetail) && useSandbox
    ensures !Present(c) ==> r == Some("Missing required credentials")
    ensures Present(c) && !Truthy(status) ==> r == Some("Status is required")
    ensures Present(c) && Truthy(status) && !Truthy(statusDetail) ==> r == Some("Status detail is required")
    ensures Present(c) && Truthy(status) && Truthy(statusDetail) && !useSandbox ==>
      r == Some("This endpoint only works in sandbox environment")
  {
    if !Present(c) then Some("Missing required credentials")
    else if !Truthy(status) then Some("Status is required")
    else if !Truthy(statusDetail) then Some("Status detail is required")
    else if !useSandbox then Some("This endpoint only works in sandbox environment")
    else None
  }

  /** The state update's merge (app.py:722-729): an existing record takes the
      status the response reports, or the requested status when it reports
      none. */
  function ApplySandboxState(t: VerificationTable, vid: string, newStatus: Json, ok: bool, resp: Json)
    : (r: Result<VerificationTable>)
    ensures r.Failure? <==> ok && JStr(vid) in t && !resp.JObj?
    ensures r.Success? && !(ok && JStr(vid) in t) ==> r.value == t
    ensures r.Success? && ok && JStr(vid) in t ==>
      && r.value.Keys == t.Keys
      && (forall k :: k in t && k != JStr(vid) ==> r.value[k] == t[k])
      && r.value[JStr(vid)].status == (if "status" in resp.fields then resp.fields["status"] else newStatus)
      && r.value[JStr(vid)].rawResponse == resp
      && r.value[JStr(vid)].userId == t[JStr(vid)].userId
      && r.value[JStr(vid)] == t[JStr(vid)].(status := r.value[JStr(vid)].status, rawResponse := resp)
    ensures r.Success? && VerificationsKeyed(t) ==> VerificationsKeyed(r.value)
  {
    var key := JStr(vid);
    if !ok || key !in t then Success(t)
    else
      var m :- AsObject(resp, "response");
      Success(t[key := t[key].(status := GetOr(m, "status", newStatus), rawResponse := resp)])
  }

  // ---------------------------------------------------------------------
  // Cascading delete
  // ---------------------------------------------------------------------

  /** `delete_verification`: not found when no record has the id; otherwise
      the record and every document filed under it are removed. */
  function DeleteVerification(l: Ledger, vid: string): (r: Result<Ledger>)
    ensures r.Success? <==> JStr(vid) in l.verifications
    ensures r.Success? ==>
      && r.value.verifications == l.verifications - {JStr(vid)}
      && (forall k :: k in r.value.documents <==> k in l.documents && l.documents[k].verificationId != vid)
      && (forall k :: k in r.value.documents ==> r.value.documents[k] == l.documents[k])
      && r.value.payments == l.payments && r.value.payouts == l.payouts
  {
    if JStr(vid) !in l.verifications then Failure("404 Not Found")
    else
      var docs := map k | k in l.documents && l.documents[k].verificationId != vid :: l.documents[k];
      Success(l.(verifications := l.verifications - {JStr(vid)}, documents := docs))
  }

  /** In a well-keyed ledger the delete removes exactly the documents whose
      key names the verification, and the ledger stays well keyed. */
  lemma DeleteVerificationKeyed(l: Ledger, vid: string)
    requires WellKeyed(l) && JStr(vid) in l.verifications
    ensures var r := DeleteVerification(l, vid).value;
      && WellKeyed(r)
      && (forall k :: k in r.documents <==> k in l.documents && k.0 != vid)
  {
  }

  // ---------------------------------------------------------------------
  // Approved-verification queries
  // ---------------------------------------------------------------------

  predicate IsApproved(v: Verification) {
    v.status == JStr("APPROVED")
  }

  /** `get_approved_verifications`: approved records with a user id, of the
      requested client type when one is given (the empty string stands for
      an absent query argument). */
  function ApprovedVerifications(t: VerificationTable, clientType: string): (r: VerificationTable)
    ensures forall k :: k in r <==>
      && k in t && IsApproved(t[k]) && t[k].userId != JNull
      && (clientType != "" ==> t[k].clientType == JStr(clientType))
    ensures forall k :: k in r ==> r[k] == t[k]
  {
    map k | k in t && IsApproved(t[k]) && t[k].userId != JNull &&
                      (clientType != "" ==> t[k].clientType == JStr(clientType)) :: t[k]
  }

  /** A record offered for payments, with the id to use as the payment's
      user id. */
  datatype Party = Party(record: Verification, paymentUserId: Json)

  /** `get_approved_remitters` and `get_approved_beneficiaries`: approved
      records of the role, with or without a user id; the payment user id is
      the user id when it is non-empty and the verification id otherwise. */
  function ApprovedParties(t: VerificationTable, role: string): (r: map<Json, Party>)
    ensures forall k :: k in r <==> k in t && t[k].clientType == JStr(role) && IsApproved(t[k])
    ensures forall k :: k in r ==> r[k].record == t[k]
    ensures forall k :: k in r ==>
      r[k].paymentUserId == (if Truthy(t[k].userId) then t[k].userId else t[k].verificationId)
  {
    map k | k in t && t[k].clientType == JStr(role) && IsApproved(t[k]) ::
      Party(t[k], if Truthy(t[k].userId) then t[k].userId else t[k].verificationId)
  }

  function ApprovedRemitters(t: VerificationTable): map<Json, Party> {
    ApprovedParties(t, "REMITTER")
  }

  function ApprovedBeneficiaries(t: VerificationTable): map<Json, Party> {
    ApprovedParties(t, "BENEFICIARY")
  }

  /** The two queries agree on records with a known user id; a record the
      provider approved without reporting a client id is offered for
      payments under its verification id, yet is not listed as approved. */
  lemma ApprovedQueriesAgree(t: VerificationTable, role: string, k: Json)
    requires role != ""
    ensures k in ApprovedParties(t, role) && t[k].userId != JNull ==>
      k in ApprovedVerifications(t, role)
    ensures k in ApprovedVerifications(t, role) ==> k in ApprovedParties(t, role)
    ensures k in ApprovedParties(t, role) && t[k].userId == JNull ==>
      k !in ApprovedVerifications(t, role) && ApprovedParties(t, role)[k].paymentUserId == t[k].verificationId
  {
  }

  /** The creation scenario: a remitter approved at once with client id "U1"
      is the only record afterwards, listed as approved and offered for
      payments under "U1". */
  lemma CreationScenario(form: Object, useSandbox: bool)
    ensures var resp := JObj(map["id" := JStr("V1"), "status" := JStr("APPROVED"),
                                 "attributes" := JObj(map["client" := JObj(map["id" := JStr("U1")])])]);
      var r := RecordVerification(map[], JStr("REMITTER"), form, useSandbox, true, resp);
      && r.Success?
      && r.value.Keys == {JStr("V1")}
      && r.value[JStr("V1")].status == JStr("APPROVED")
      && r.value[JStr("V1")].userId == JStr("U1")
      && JStr("V1") in ApprovedVerifications(r.value, "REMITTER")
      && ApprovedRemitters(r.value)[JStr("V1")].paymentUserId == JStr("U1")
  {
    var resp := JObj(map["id" := JStr("V1"), "status" := JStr("APPROVED"),
                         "attributes" := JObj(map["client" := JObj(map["id" := JStr("U1")])])]);
    var r := RecordVerification(map[], JStr("REMITTER"), form, useSandbox, true, resp);
    assert ClientData(resp.fields) == Success(map["id" := JStr("U1")]);
    assert r.value[JStr("V1")].clientType == JStr("REMITTER");
  }
}
