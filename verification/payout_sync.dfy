/** The payout exchange (app.py:1088-1262): the reply the handler returns and
    the merge of a payout response into the ledger. Unlike the other
    handlers, the merge runs inside its own error handler: a failure while
    saving leaves the table as it was and is reported in the reply as
    `save_error` instead of making the request fail. */
module PayoutSync {
  import opened Wrappers
  import opened JsonValues
  import opened Fields
  import opened Signing
  import opened Envelopes
  import opened PayoutBodies
  import opened Ledger

  /** The response keys that may carry the provider's payout id, in the order
      they are consulted. */
  const IdCandidates: seq<string> := ["id", "payout_id", "payment_id", "cashout_id", "transaction_id"]

  /** Python's `a or b or ...`: the first truthy operand, or the last operand
      when none is truthy. */
  function OrChain(vs: seq<Json>): Json
    requires |vs| > 0
    decreases |vs|
  {
    if |vs| == 1 || Truthy(vs[0]) then vs[0] else OrChain(vs[1..])
  }

  /** The chain picks the first truthy operand. */
  lemma {:induction false} OrChainFirst(vs: seq<Json>, i: int)
    requires 0 <= i < |vs| && Truthy(vs[i])
    requires forall j :: 0 <= j < i ==> !Truthy(vs[j])
    ensures OrChain(vs) == vs[i]
    decreases |vs|
  {
    if i > 0 {
      assert !Truthy(vs[0]);
      assert forall j :: 0 <= j < i - 1 ==> vs[1..][j] == vs[j + 1];
      OrChainFirst(vs[1..], i - 1);
    }
  }

  /** With no truthy operand the chain gives the last one. */
  lemma {:induction false} OrChainNone(vs: seq<Json>)
    requires |vs| > 0
    requires forall j :: 0 <= j < |vs| ==> !Truthy(vs[j])
    ensures OrChain(vs) == vs[|vs| - 1]
    decreases |vs|
  {
    if |vs| > 1 {
      assert !Truthy(vs[0]);
      assert forall j :: 0 <= j < |vs| - 1 ==> vs[1..][j] == vs[j + 1];
      OrChainNone(vs[1..]);
    }
  }

  /** `response_json and isinstance(response_json, dict)`: a non-empty
      object. */
  predicate DictReply(resp: Json) {
    resp.JObj? && resp.fields != map[]
  }

  /** The values of the candidate keys in a response object. */
  function CandidateValues(m: Object): (vs: seq<Json>)
    ensures |vs| == |IdCandidates|
    ensures forall i :: 0 <= i < |vs| ==> vs[i] == Get(m, IdCandidates[i])
  {
    seq(|IdCandidates|, i requires 0 <= i < |IdCandidates| => Get(m, IdCandidates[i]))
  }

  /** The provider's payout id: nothing unless the response is a non-empty
      object, else the first candidate with a truthy value, falling back to
      the last candidate's value. */
  function ApiPayoutId(resp: Json): Json {
    if DictReply(resp) then OrChain(CandidateValues(resp.fields)) else JNull
  }

  /** The id found is the value of the first candidate key that has a truthy
      value; when no candidate has one the id is falsy. */
  lemma ApiPayoutIdFirst(resp: Json, i: int)
    requires DictReply(resp) && 0 <= i < |IdCandidates|
    requires Truthy(Get(resp.fields, IdCandidates[i]))
    requires forall j :: 0 <= j < i ==> !Truthy(Get(resp.fields, IdCandidates[j]))
    ensures ApiPayoutId(resp) == Get(resp.fields, IdCandidates[i])
  {
    OrChainFirst(CandidateValues(resp.fields), i);
  }

  lemma ApiPayoutIdNone(resp: Json)
    requires resp.JObj? ==> forall j :: 0 <= j < |IdCandidates| ==> !Truthy(Get(resp.fields, IdCandidates[j]))
    ensures !Truthy(ApiPayoutId(resp))
  {
    if DictReply(resp) {
      OrChainNone(CandidateValues(resp.fields));
    }
  }

  /** A response that only names a cash-out id yields that id. */
  lemma CashoutIdExample()
    ensures ApiPayoutId(JObj(map["cashout_id" := JStr("C9"), "status" := JStr("PAID")])) == JStr("C9")
  {
    var m := map["cashout_id" := JStr("C9"), "status" := JStr("PAID")];
    assert IdCandidates[0] == "id" && IdCandidates[1] == "payout_id";
    assert IdCandidates[2] == "payment_id" && IdCandidates[3] == "cashout_id";
    assert "id" !in m && "payout_id" !in m && "payment_id" !in m;
    assert Get(m, IdCandidates[3]) == JStr("C9");
    ApiPayoutIdFirst(JObj(m), 3);
  }

  /** `float(...)` applied to the requested amount, which is foreign code; it
      fails with the exception's message. */
  type FloatOf = Json -> Result<Json>

  /** The merge into an existing record: the payout id is replaced only by a
      truthy id; status, detail and raw response only when the response is a
      non-empty object, and then status and detail only when it has them. */
  function Refreshed(p: Payout, resp: Json): (q: Payout)
    ensures q.payoutId == (if Truthy(ApiPayoutId(resp)) then ApiPayoutId(resp) else p.payoutId)
    ensures !DictReply(resp) ==> q == p.(payoutId := q.payoutId)
    ensures DictReply(resp) ==>
      && q.status == (if "status" in resp.fields then resp.fields["status"] else p.status)
      && q.statusDetail == (if "status_detail" in resp.fields then resp.fields["status_detail"] else p.statusDetail)
      && q.rawResponse == resp
    ensures q == p.(payoutId := q.payoutId, status := q.status, statusDetail := q.statusDetail,
                    rawResponse := q.rawResponse)
  {
    var apiId := ApiPayoutId(resp);
    var p := if Truthy(apiId) then p.(payoutId := apiId) else p;
    if DictReply(resp) then
      p.(status := GetOr(resp.fields, "status", p.status),
         statusDetail := GetOr(resp.fields, "status_detail", p.statusDetail),
         rawResponse := resp)
    else p
  }

  /** A new record: the payout id as found (even when falsy), the converted
      amount, the rest of the request's data, status "PENDING" and empty
      detail unless a non-empty object response gives them, and the response
      as raw response, `{}` when it is falsy. */
  function Created(ext: Json, amount: Json, pd: Object, useSandbox: bool, resp: Json): (p: Payout)
    ensures p.externalId == ext && p.payoutId == ApiPayoutId(resp) && p.amount == amount
    ensures p.currency == Get(pd, "currency") && p.country == Get(pd, "country")
    ensures p.bankAccount == Get(pd, "bank_account") && p.purpose == Get(pd, "purpose")
    ensures p.remitterUserId == Get(pd, "remitter_user_id")
    ensures p.beneficiaryUserId == Get(pd, "beneficiary_user_id")
    ensures p.status == (if DictReply(resp) && "status" in resp.fields then resp.fields["status"] else JStr("PENDING"))
    ensures p.statusDetail == (if DictReply(resp) && "status_detail" in resp.fields then resp.fields["status_detail"] else Empty)
    ensures p.rawResponse == (if Truthy(resp) then resp else JObj(map[]))
    ensures p.environment == Sandbox <==> useSandbox
  {
    var dict := DictReply(resp);
    Payout(ext, ApiPayoutId(resp), amount,
           Get(pd, "currency"), Get(pd, "country"), Get(pd, "bank_account"),
           if dict then GetOr(resp.fields, "status", JStr("PENDING")) else JStr("PENDING"),
           if dict then GetOr(resp.fields, "status_detail", Empty) else Empty,
           Get(pd, "remitter_user_id"), Get(pd, "beneficiary_user_id"), Get(pd, "purpose"),
           EnvironmentOf(useSandbox),
           if Truthy(resp) then resp else JObj(map[]))
  }

  /** What the merge reports: the table afterwards, whether the record was
      saved, and the message of a failed save. */
  datatype SaveOutcome = SaveOutcome(table: PayoutTable, saved: bool, saveError: Option<string>)

  /** The merge of a payout response, keyed by the caller's external id.
      Nothing happens unless the call succeeded and the request names a
      non-empty external id. A new record whose amount cannot be converted is
      not saved, and the conversion's message is reported. */
  function RecordPayout(float: FloatOf, t: PayoutTable, pd: Object, useSandbox: bool, ok: bool, resp: Json)
    : (r: SaveOutcome)
    ensures var ext := Get(pd, "external_id");
      && (r.saved <==>
            ok && Truthy(ext) && (ext in t || float(GetOr(pd, "amount", JStr("0.00"))).Success?))
      && (r.saveError.Some? <==>
            ok && Truthy(ext) && ext !in t && float(GetOr(pd, "amount", JStr("0.00"))).Failure?)
      && (r.saveError.Some? ==> r.saveError.value == float(GetOr(pd, "amount", JStr("0.00"))).error)
      && (!r.saved ==> r.table == t)
      && (r.saved ==> r.table.Keys == t.Keys + {ext} && (forall k :: k in t && k != ext ==> r.table[k] == t[k]))
    ensures PayoutsKeyed(t) ==> PayoutsKeyed(r.table)
  {
    var ext := Get(pd, "external_id");
    if !ok || !Truthy(ext) then SaveOutcome(t, false, None)
    else if ext in t then SaveOutcome(t[ext := Refreshed(t[ext], resp)], true, None)
    else match float(GetOr(pd, "amount", JStr("0.00")))
      case Failure(e) => SaveOutcome(t, false, Some(e))
      case Success(amount) => SaveOutcome(t[ext := Created(ext, amount, pd, useSandbox, resp)], true, None)
  }

  /** The record a saved merge leaves under the external id: the existing
      record refreshed, or a new one with the converted amount. */
  lemma RecordPayoutValue(float: FloatOf, t: PayoutTable, pd: Object, useSandbox: bool, ok: bool, resp: Json)
    requires RecordPayout(float, t, pd, useSandbox, ok, resp).saved
    ensures var ext := Get(pd, "external_id");
      var r := RecordPayout(float, t, pd, useSandbox, ok, resp).table;
      && (ext in t ==> r[ext] == Refreshed(t[ext], resp))
      && (ext !in t ==> r[ext] == Created(ext, float(GetOr(pd, "amount", JStr("0.00"))).value, pd, useSandbox, resp))
  {
  }

  /** A record that already reflects a response is a fixed point of the
      merge of that response. */
  lemma RefreshedFixedPoint(p: Payout, resp: Json)
    requires Truthy(ApiPayoutId(resp)) ==> p.payoutId == ApiPayoutId(resp)
    requires DictReply(resp) ==> p.rawResponse == resp
    requires DictReply(resp) && "status" in resp.fields ==> p.status == resp.fields["status"]
    requires DictReply(resp) && "status_detail" in resp.fields ==> p.statusDetail == resp.fields["status_detail"]
    ensures Refreshed(p, resp) == p
  {
  }

  /** Replaying a payout response changes nothing further. */
  lemma RecordPayoutIdempotent(float: FloatOf, t: PayoutTable, pd: Object, useSandbox: bool, ok: bool, resp: Json)
    ensures var once := RecordPayout(float, t, pd, useSandbox, ok, resp).table;
      RecordPayout(float, once, pd, useSandbox, ok, resp).table == once
  {
    var once := RecordPayout(float, t, pd, useSandbox, ok, resp);
    var ext := Get(pd, "external_id");
    if once.saved {
      RecordPayoutValue(float, t, pd, useSandbox, ok, resp);
      RefreshedFixedPoint(once.table[ext], resp);
      assert once.table[ext := once.table[ext]] == once.table;
    }
  }

  /** A response that names no payout id never clears one already stored. */
  lemma PayoutIdKeptWithoutCandidate(float: FloatOf, t: PayoutTable, pd: Object, useSandbox: bool, resp: Json)
    requires Get(pd, "external_id") in t
    requires resp.JObj? ==> forall j :: 0 <= j < |IdCandidates| ==> !Truthy(Get(resp.fields, IdCandidates[j]))
    ensures var ext := Get(pd, "external_id");
      var r := RecordPayout(float, t, pd, useSandbox, true, resp).table;
      ext in r && r[ext].payoutId == t[ext].payoutId
  {
    ApiPayoutIdNone(resp);
  }

  /** The scenario of a first payout whose response names only a cash-out
      id: one record, under the external id, carrying that id. */
  lemma CashoutScenario(float: FloatOf, pd: Object, useSandbox: bool)
    requires Get(pd, "external_id") == JStr("X1")
    requires float(GetOr(pd, "amount", JStr("0.00"))).Success?
    ensures var resp := JObj(map["cashout_id" := JStr("C9"), "status" := JStr("PAID")]);
      var r := RecordPayout(float, map[], pd, useSandbox, true, resp);
      && r.saved && r.table.Keys == {JStr("X1")}
      && r.table[JStr("X1")].payoutId == JStr("C9")
      && r.table[JStr("X1")].status == JStr("PAID")
  {
    CashoutIdExample();
  }

  // ---------------------------------------------------------------------
  // The handler's reply
  // ---------------------------------------------------------------------

  /** The payout handler's reply: rejected before sending, delivered with the
      provider's answer and the outcome of the save, or undelivered. `sent`
      holds the headers the request carried; the handler does not echo them. */
  datatype PayoutReply =
    | Rejected(reason: string)
    | Delivered(success: bool, statusCode: int, response: Json, responseHeaders: Headers,
                bodySent: Object, url: string, sent: Headers, saved: bool, saveError: Option<string>)
    | Undelivered(error: string, bodySent: Object, url: string, sent: Headers)

  /** `create_payout`: the credentials are checked, the body is composed,
      serialised, signed with the payload signature and sent, and a
      successful answer is merged into the table. `timestamp` is the
      reading of the clock the handler formats for `X-Date`. */
  function CreatePayout(mac: Mac, dumps: Json -> string, parse: Parser, float: FloatOf,
                        t: PayoutTable, c: Credentials, pd: Object, useSandbox: bool,
                        timestamp: string, transport: Transport): (r: (PayoutReply, PayoutTable))
    ensures r.0.Rejected? <==> !Present(c)
    ensures r.0.Rejected? ==> r.0.reason == "Missing required credentials"
    ensures !r.0.Rejected? ==>
      && r.0.bodySent == PayoutBody(c.login, c.transKey, pd) && r.0.url == PayoutUrl(useSandbox)
      && r.0.sent == PayoutHeaders(mac, c.login, c.transKey, c.secret, timestamp,
                                   dumps(JObj(PayoutBody(c.login, c.transKey, pd))))
    ensures r.0.Undelivered? <==> Present(c) && transport.Unreachable?
    ensures r.0.Undelivered? ==> r.0.error == transport.reason && r.1 == t
    ensures r.0.Delivered? ==> (r.0.success <==> IsOk(r.0.statusCode)) && r.0.statusCode == transport.status
    ensures r.0.Delivered? ==>
      && r.0.response == DecodeBody(parse, transport.text)
      && r.0.responseHeaders == transport.headers
    ensures r.0.Delivered? ==>
      var o := RecordPayout(float, t, pd, useSandbox, IsOk(transport.status), DecodeBody(parse, transport.text));
      r.1 == o.table && r.0.saved == o.saved && r.0.saveError == o.saveError
    ensures !(r.0.Delivered? && r.0.saved) ==> r.1 == t
  {
    if !Present(c) then (Rejected("Missing required credentials"), t)
    else
      var body := PayoutBody(c.login, c.transKey, pd);
      var url := PayoutUrl(useSandbox);
      var sent := PayoutHeaders(mac, c.login, c.transKey, c.secret, timestamp, dumps(JObj(body)));
      match transport
      case Unreachable(e) => (Undelivered(e, body, url, sent), t)
      case Completed(status, text, rh) =>
        var resp := DecodeBody(parse, text);
        var o := RecordPayout(float, t, pd, useSandbox, IsOk(status), resp);
        (Delivered(IsOk(status), status, resp, rh, body, url, sent, o.saved, o.saveError), o.table)
  }

  /** The payload signature of a payout request authenticates exactly the
      serialised body it travels with: re-computing it over the text sent
      reproduces it, and it never depends on the timestamp. */
  lemma PayoutSignatureCoversBody(mac: Mac, dumps: Json -> string, parse: Parser, float: FloatOf,
                                  t: PayoutTable, c: Credentials, pd: Object, useSandbox: bool,
                                  ts1: string, ts2: string, transport: Transport)
    requires Present(c)
    ensures var r1 := CreatePayout(mac, dumps, parse, float, t, c, pd, useSandbox, ts1, transport).0;
      var r2 := CreatePayout(mac, dumps, parse, float, t, c, pd, useSandbox, ts2, transport).0;
      && r1.sent["payload-signature"] == mac(c.secret, dumps(JObj(r1.bodySent)))
      && r1.sent["payload-signature"] == r2.sent["payload-signature"]
      && r1.sent["X-Date"] == ts1
  {
  }
}
