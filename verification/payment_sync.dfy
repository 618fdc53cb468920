/** Reconciliation of payment records: the merge of a payment creation
    response (app.py:962-997) and of a payment details response
    (app.py:1063-1071). A response of an unexpected shape makes the handler
    raise before it commits; such a run is a `Failure` and the table is left
    as it was. */
module PaymentSync {
  import opened Wrappers
  import opened JsonValues
  import opened Fields
  import opened PaymentBodies
  import opened Ledger

  /** The merge into an existing record: status, detail and code are replaced
      by the values the response has, and the raw response always. */
  function Refreshed(p: Payment, m: Object, resp: Json): (q: Payment)
    ensures "status" in m ==> q.status == m["status"]
    ensures "status" !in m ==> q.status == p.status
    ensures "status_detail" in m ==> q.statusDetail == m["status_detail"]
    ensures "status_detail" !in m ==> q.statusDetail == p.statusDetail
    ensures "status_code" in m ==> q.statusCode == m["status_code"]
    ensures "status_code" !in m ==> q.statusCode == p.statusCode
    ensures q == p.(status := q.status, statusDetail := q.statusDetail,
                    statusCode := q.statusCode, rawResponse := resp)
  {
    p.(status := GetOr(m, "status", p.status),
       statusDetail := GetOr(m, "status_detail", p.statusDetail),
       statusCode := GetOr(m, "status_code", p.statusCode),
       rawResponse := resp)
  }

  /** A new record: the response's values where it has them, else the
      request's; status "CREATED" with empty detail and code when the
      response reports none; user ids from the request. */
  function Created(id: Json, pd: Object, m: Object, useSandbox: bool, resp: Json): (p: Payment)
    ensures p.paymentId == id
    ensures p.orderId == (if "order_id" in m then m["order_id"] else Get(pd, "external_reference"))
    ensures p.amount == (if "amount" in m then m["amount"] else Get(pd, "amount"))
    ensures p.currency == (if "currency" in m then m["currency"] else Get(pd, "currency"))
    ensures p.country == (if "country" in m then m["country"] else Get(pd, "country"))
    ensures p.paymentMethodId == (if "payment_method_id" in m then m["payment_method_id"] else PaymentMethod(pd))
    ensures p.status == (if "status" in m then m["status"] else JStr("CREATED"))
    ensures p.statusDetail == (if "status_detail" in m then m["status_detail"] else Empty)
    ensures p.statusCode == (if "status_code" in m then m["status_code"] else Empty)
    ensures p.remitterUserId == Get(pd, "remitter_user_id")
    ensures p.beneficiaryUserId == Get(pd, "beneficiary_user_id")
    ensures (p.environment == Sandbox <==> useSandbox) && p.rawResponse == resp
  {
    Payment(id,
            GetOr(m, "order_id", Get(pd, "external_reference")),
            GetOr(m, "amount", Get(pd, "amount")),
            GetOr(m, "currency", Get(pd, "currency")),
            GetOr(m, "country", Get(pd, "country")),
            GetOr(m, "payment_method_id", PaymentMethod(pd)),
            GetOr(m, "status", JStr("CREATED")),
            GetOr(m, "status_detail", Empty),
            GetOr(m, "status_code", Empty),
            Get(pd, "remitter_user_id"),
            Get(pd, "beneficiary_user_id"),
            EnvironmentOf(useSandbox),
            resp)
  }

  /** The identifier a response names: its `id` when it is an object. */
  function ResponseId(resp: Json): Json {
    if resp.JObj? then Get(resp.fields, "id") else JNull
  }

  /** The merge of a creation response. A successful call whose response is
      not an object makes the handler raise; nothing is recorded unless the
      response names a non-empty id. */
  function RecordPayment(t: PaymentTable, pd: Object, useSandbox: bool, ok: bool, resp: Json)
    : (r: Result<PaymentTable>)
    ensures !ok ==> r == Success(t)
    ensures r.Failure? <==> ok && !resp.JObj?
    ensures r.Success? && PaymentsKeyed(t) ==> PaymentsKeyed(r.value)
  {
    if !ok then Success(t)
    else
      var m :- AsObject(resp, "response");
      var id := Get(m, "id");
      if !Truthy(id) then Success(t)
      else if id in t then Success(t[id := Refreshed(t[id], m, resp)])
      else Success(t[id := Created(id, pd, m, useSandbox, resp)])
  }

  /** What a creation response does to the table: nothing unless the call
      succeeded and the response names a non-empty id; otherwise the record
      under that id is refreshed or created and no other record changes. */
  lemma RecordPaymentEffect(t: PaymentTable, pd: Object, useSandbox: bool, ok: bool, resp: Json)
    requires RecordPayment(t, pd, useSandbox, ok, resp).Success?
    ensures var r := RecordPayment(t, pd, useSandbox, ok, resp).value;
      && (!(ok && Truthy(ResponseId(resp))) ==> r == t)
      && (ok && Truthy(ResponseId(resp)) ==>
          var id := ResponseId(resp);
          && r.Keys == t.Keys + {id}
          && (forall k :: k in t && k != id ==> r[k] == t[k])
          && r[id].rawResponse == resp
          && (id in t ==> r[id] == Refreshed(t[id], resp.fields, resp))
          && (id !in t ==> r[id] == Created(id, pd, resp.fields, useSandbox, resp)))
  {
  }

  /** A record that already reflects a response is a fixed point of the
      merge of that response. */
  lemma RefreshedFixedPoint(p: Payment, m: Object, resp: Json)
    requires p.rawResponse == resp
    requires "status" in m ==> p.status == m["status"]
    requires "status_detail" in m ==> p.statusDetail == m["status_detail"]
    requires "status_code" in m ==> p.statusCode == m["status_code"]
    ensures Refreshed(p, m, resp) == p
  {
  }

  /** Replaying a creation response changes nothing further. */
  lemma RecordPaymentIdempotent(t: PaymentTable, pd: Object, useSandbox: bool, ok: bool, resp: Json)
    requires RecordPayment(t, pd, useSandbox, ok, resp).Success?
    ensures var once := RecordPayment(t, pd, useSandbox, ok, resp).value;
      RecordPayment(once, pd, useSandbox, ok, resp) == Success(once)
  {
    var once := RecordPayment(t, pd, useSandbox, ok, resp).value;
    if ok && Truthy(ResponseId(resp)) {
      var id := ResponseId(resp);
      RecordPaymentEffect(t, pd, useSandbox, ok, resp);
      RefreshedFixedPoint(once[id], resp.fields, resp);
      assert once[id := once[id]] == once;
    }
  }

  /** The details handler's merge: only an existing record is touched, with
      the same rule as a creation response; the response must then be an
      object. */
  function RefreshPayment(t: PaymentTable, pid: string, ok: bool, resp: Json): (r: Result<PaymentTable>)
    ensures r.Failure? <==> ok && JStr(pid) in t && !resp.JObj?
    ensures r.Success? && !(ok && JStr(pid) in t) ==> r.value == t
    ensures r.Success? && ok && JStr(pid) in t ==>
      && r.value.Keys == t.Keys
      && (forall k :: k in t && k != JStr(pid) ==> r.value[k] == t[k])
      && r.value[JStr(pid)] == Refreshed(t[JStr(pid)], resp.fields, resp)
  {
    var key := JStr(pid);
    if !ok || key !in t then Success(t)
    else
      var m :- AsObject(resp, "response");
      Success(t[key := Refreshed(t[key], m, resp)])
  }

  /** Fetching a payment with no local record leaves the table as it was,
      whatever the response. */
  lemma RefreshUnknownIsNoOp(t: PaymentTable, pid: string, ok: bool, resp: Json)
    requires JStr(pid) !in t
    ensures RefreshPayment(t, pid, ok, resp) == Success(t)
  {
  }

  /** Fetching the details that the creation call already returned changes
      nothing: the creation and the details merges agree. */
  lemma RefreshAfterRecordAgrees(t: PaymentTable, pd: Object, useSandbox: bool, pid: string, resp: Json)
    requires RecordPayment(t, pd, useSandbox, true, resp).Success?
    requires ResponseId(resp) == JStr(pid) && pid != ""
    ensures var once := RecordPayment(t, pd, useSandbox, true, resp).value;
      RefreshPayment(once, pid, true, resp) == Success(once)
  {
    var once := RecordPayment(t, pd, useSandbox, true, resp).value;
    RecordPaymentEffect(t, pd, useSandbox, true, resp);
    RefreshedFixedPoint(once[JStr(pid)], resp.fields, resp);
    assert once[JStr(pid) := once[JStr(pid)]] == once;
  }

  /** A details response moves the status of a known payment to whatever it
      reports, and keeps the record's identity and amounts. */
  lemma RefreshKeepsIdentity(t: PaymentTable, pid: string, resp: Json)
    requires PaymentsKeyed(t) && JStr(pid) in t && resp.JObj?
    ensures var r := RefreshPayment(t, pid, true, resp);
      && r.Success? && PaymentsKeyed(r.value)
      && r.value[JStr(pid)].paymentId == JStr(pid)
      && r.value[JStr(pid)].amount == t[JStr(pid)].amount
      && r.value[JStr(pid)].orderId == t[JStr(pid)].orderId
  {
  }
}
