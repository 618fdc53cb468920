/** The API handlers end to end (app.py:407-1075): each checks its input,
    composes and signs the outbound request, folds whatever came back into
    the uniform envelope, and merges a successful answer into the ledger.

    The foreign code the handlers call (HMAC, `json.dumps`, `json.loads`) is
    a `Platform` value, the clock's reading is the `date` argument and the
    network's answer is the `Transport` argument. */
module Routes {
  import opened Wrappers
  import opened JsonValues
  import opened Signing
  import opened Envelopes
  import opened Ledger
  import opened VerificationBodies
  import opened PaymentBodies
  import opened VerificationSync
  import opened DocumentSync
  import opened PaymentSync

  datatype Platform = Platform(mac: Mac, dumps: Json -> string, parse: Parser)

  /** A handler's reply: rejected before anything is sent, or answered with
      the URL called, the headers that went on the wire and the envelope. */
  datatype Reply =
    | Rejected(reason: string)
    | Answered(url: string, sent: Headers, envelope: Envelope)

  const MissingCredentials: string := "Missing required credentials"

  function VerificationsUrl(useSandbox: bool): string {
    BaseUrl(useSandbox) + "/kyc/verifications"
  }

  /** The fetch always asks for the client data, which carries the user id. */
  function VerificationUrl(useSandbox: bool, vid: string): string {
    VerificationsUrl(useSandbox) + "/" + vid + "?include=client_data"
  }

  function DocumentsUrl(useSandbox: bool, vid: string): string {
    VerificationsUrl(useSandbox) + "/" + vid + "/documents"
  }

  function DocumentUrl(useSandbox: bool, vid: string, did: string): string {
    DocumentsUrl(useSandbox, vid) + "/" + did
  }

  /** The sandbox tools path is spelt "sanbox-tools", as the provider's
      documentation spells it. */
  function SandboxStateUrl(useSandbox: bool, vid: string): string {
    BaseUrl(useSandbox) + "/kyc/sanbox-tools/verifications/" + vid
  }

  function PaymentDetailsUrl(useSandbox: bool, pid: string): string {
    BaseUrl(useSandbox) + "/payments/" + pid + "/details"
  }

  /** The reply carries headers that authenticate `bodyText`, the envelope's
      signature is the one in the `Authorization` header, and the envelope
      echoes every other header. */
  predicate SignedFor(p: Platform, c: Credentials, bodyText: string, r: Reply) {
    r.Answered? ==>
      && Authenticates(p.mac, c.secret, r.sent, bodyText)
      && SignatureOf(r.sent["Authorization"]) == Some(r.envelope.signature)
      && r.envelope.headersSent == r.sent - {"Authorization"}
  }

  /** Whether the exchange completed with a non-error status. */
  predicate Succeeded(t: Transport) {
    t.Completed? && IsOk(t.status)
  }

  /** One signed exchange: V2 headers for `bodyText` (with a JSON content type
      when `json` is set), and the envelope of whatever came back. */
  function Exchange(p: Platform, c: Credentials, date: string, url: string, bodyText: string,
                    bodySent: Json, json: bool, t: Transport): (r: Reply)
    ensures r.Answered? && r.url == url && SignedFor(p, c, bodyText, r)
    ensures r.sent.Keys == V2HeaderNames + (if json then {"Content-Type"} else {})
    ensures json ==> r.sent["Content-Type"] == "application/json"
    ensures r.sent["X-Date"] == date && r.sent["X-Login"] == c.login && r.sent["X-Trans-Key"] == c.transKey
    ensures r.envelope.date == date && r.envelope.bodySent == bodySent
    ensures r.envelope.success <==> Succeeded(t)
    ensures t.Completed? ==> r.envelope.response == Some(DecodeBody(p.parse, t.text))
  {
    var h := if json then JsonHeaders(p.mac, c.login, c.transKey, c.secret, date, bodyText)
             else MakeHeaders(p.mac, c.login, c.transKey, c.secret, date, bodyText);
    var sig := Signature(p.mac, c.login, c.secret, date, bodyText);
    MakeHeadersAuthenticate(p.mac, c.login, c.transKey, c.secret, date, bodyText);
    var r := Answered(url, h, Normalize(p.parse, t, h, sig, date, bodySent));
    assert SignatureOf(h["Authorization"]) == Some(sig) by {
      assert h["Authorization"] == AuthorizationScheme + sig;
    }
    r
  }

  /** The decoded answer of a completed exchange, `{}` otherwise. */
  function Answer(p: Platform, t: Transport): Json {
    if t.Completed? then DecodeBody(p.parse, t.text) else JObj(map[])
  }

  /** The exchange of `create_verification`: the body for the client type,
      signed over its serialised text. */
  function SendVerification(p: Platform, c: Credentials, clientType: Json, form: Object,
                            useSandbox: bool, date: string, t: Transport): (r: Reply)
    ensures r.Answered? && r.url == VerificationsUrl(useSandbox)
    ensures r.envelope.bodySent == VerificationBody(clientType, form)
    ensures SignedFor(p, c, p.dumps(VerificationBody(clientType, form)), r)
  {
    var body := VerificationBody(clientType, form);
    Exchange(p, c, date, VerificationsUrl(useSandbox), p.dumps(body), body, false, t)
  }

  /** `create_verification` (app.py:407-494). */
  function CreateVerification(p: Platform, vt: VerificationTable, c: Credentials, clientType: Json,
                              form: Object, useSandbox: bool, date: string, t: Transport)
    : (r: Result<(Reply, VerificationTable)>)
    ensures r.Success? && r.value.0.Rejected? <==> !Present(c)
    ensures r.Failure? ==> Present(c) && Succeeded(t)
    ensures r.Success? && r.value.0.Answered? ==>
      r.value.0 == SendVerification(p, c, clientType, form, useSandbox, date, t)
    ensures r.Success? && !(Present(c) && Succeeded(t)) ==> r.value.1 == vt
    ensures r.Success? && Present(c) && Succeeded(t) ==>
      Success(r.value.1) == RecordVerification(vt, clientType, form, useSandbox, true, Answer(p, t))
  {
    if !Present(c) then Success((Rejected(MissingCredentials), vt))
    else
      var reply := SendVerification(p, c, clientType, form, useSandbox, date, t);
      if !Succeeded(t) then Success((reply, vt))
      else
        var merged := RecordVerification(vt, clientType, form, useSandbox, true, Answer(p, t));
        if merged.Failure? then Failure(merged.error) else Success((reply, merged.value))
  }

  /** `get_verification` (app.py:497-550): a signed request without a body. */
  function FetchVerification(p: Platform, vt: VerificationTable, c: Credentials, vid: string,
                             useSandbox: bool, date: string, t: Transport)
    : (r: Result<(Reply, VerificationTable)>)
    ensures r.Success? && r.value.0.Rejected? <==> !Present(c)
    ensures r.Failure? ==> Present(c) && Succeeded(t) && JStr(vid) in vt
    ensures r.Success? && r.value.0.Answered? ==>
      && r.value.0.url == VerificationUrl(useSandbox, vid)
      && r.value.0.envelope.bodySent == JNull
      && SignedFor(p, c, "", r.value.0)
    ensures r.Success? && !(Present(c) && Succeeded(t)) ==> r.value.1 == vt
    ensures r.Success? && Present(c) && Succeeded(t) ==>
      Success(r.value.1) == RefreshVerification(vt, vid, true, Answer(p, t))
  {
    if !Present(c) then Success((Rejected(MissingCredentials), vt))
    else
      var reply := Exchange(p, c, date, VerificationUrl(useSandbox, vid), "", JNull, false, t);
      var after :- RefreshVerification(vt, vid, Succeeded(t), Answer(p, t));
      Success((reply, after))
  }

  /** `get_documents` (app.py:553-611). */
  function FetchDocuments(p: Platform, dt: DocumentTable, c: Credentials, vid: string,
                          useSandbox: bool, date: string, t: Transport)
    : (r: Result<(Reply, DocumentTable)>)
    ensures r.Success? && r.value.0.Rejected? <==> !Present(c)
    ensures r.Failure? ==> Present(c) && Succeeded(t)
    ensures r.Success? && r.value.0.Answered? ==>
      r.value.0.url == DocumentsUrl(useSandbox, vid) && SignedFor(p, c, "", r.value.0)
    ensures r.Success? && !(Present(c) && Succeeded(t)) ==> r.value.1 == dt
    ensures r.Success? && Present(c) && Succeeded(t) ==>
      Success(r.value.1) == SyncDocuments(dt, vid, true, Answer(p, t))
  {
    if !Present(c) then Success((Rejected(MissingCredentials), dt))
    else
      var reply := Exchange(p, c, date, DocumentsUrl(useSandbox, vid), "", JNull, false, t);
      var after :- SyncDocuments(dt, vid, Succeeded(t), Answer(p, t));
      Success((reply, after))
  }

  /** `upload_document` (app.py:614-661): `file` is the uploaded file's name,
      `None` without a file part. The envelope's body is `{"file": name}`;
      the signature covers an empty body, as the file travels as a part. */
  function UploadDocument(p: Platform, dt: DocumentTable, c: Credentials, vid: string, did: string,
                          file: Option<string>, useSandbox: bool, date: string, t: Transport)
    : (r: Result<(Reply, DocumentTable)>)
    ensures r.Success? && r.value.0.Rejected? <==> ValidateUpload(c, file).Some?
    ensures r.Success? && r.value.0.Rejected? ==> r.value.0.reason == ValidateUpload(c, file).value
    ensures r.Failure? ==> Present(c) && Succeeded(t) && (vid, JStr(did)) in dt
    ensures r.Success? && r.value.0.Answered? ==>
      && r.value.0.url == DocumentUrl(useSandbox, vid, did)
      && r.value.0.envelope.bodySent == JObj(map["file" := JStr(file.value)])
      && SignedFor(p, c, "", r.value.0)
    ensures r.Success? && !(ValidateUpload(c, file).None? && Succeeded(t)) ==> r.value.1 == dt
    ensures ValidateUpload(c, file).None? && Succeeded(t) ==>
      (r.Success? <==> RecordUpload(dt, vid, did, true, Answer(p, t)).Success?)
    ensures r.Success? && ValidateUpload(c, file).None? && Succeeded(t) ==>
      Success(r.value.1) == RecordUpload(dt, vid, did, true, Answer(p, t))
  {
    match ValidateUpload(c, file)
    case Some(reason) => Success((Rejected(reason), dt))
    case None =>
      var sent := JObj(map["file" := JStr(file.value)]);
      var reply := Exchange(p, c, date, DocumentUrl(useSandbox, vid, did), "", sent, false, t);
      if !Succeeded(t) then Success((reply, dt))
      else
        var after :- RecordUpload(dt, vid, did, true, Answer(p, t));
        Success((reply, after))
  }

  /** The sandbox state update's request body. */
  function StateBody(status: Json, statusDetail: Json): Json {
    JObj(map["status" := status, "status_detail" := statusDetail])
  }

  /** `update_verification_state` (app.py:666-737). `statusDetail`
      is the empty string when the request has none. */
  function UpdateSandboxState(p: Platform, vt: VerificationTable, c: Credentials, vid: string,
                              status: Json, statusDetail: Json, useSandbox: bool, date: string,
                              t: Transport)
    : (r: Result<(Reply, VerificationTable)>)
    ensures r.Success? && r.value.0.Rejected? <==> ValidateStateUpdate(c, status, statusDetail, useSandbox).Some?
    ensures r.Failure? ==> useSandbox && Succeeded(t) && JStr(vid) in vt
    ensures r.Success? && r.value.0.Answered? ==>
      && r.value.0.url == SandboxStateUrl(true, vid)
      && "Content-Type" in r.value.0.sent && r.value.0.sent["Content-Type"] == "application/json"
      && SignedFor(p, c, p.dumps(StateBody(status, statusDetail)), r.value.0)
    ensures r.Success? && r.value.0.Rejected? ==>
      r.value.0.reason == ValidateStateUpdate(c, status, statusDetail, useSandbox).value
    ensures r.Success? && !(r.value.0.Answered? && Succeeded(t)) ==> r.value.1 == vt
    ensures r.Success? && r.value.0.Answered? && Succeeded(t) ==>
      Success(r.value.1) == ApplySandboxState(vt, vid, status, true, Answer(p, t))
  {
    match ValidateStateUpdate(c, status, statusDetail, useSandbox)
    case Some(reason) => Success((Rejected(reason), vt))
    case None =>
      var body := StateBody(status, statusDetail);
      var reply := Exchange(p, c, date, SandboxStateUrl(useSandbox, vid), p.dumps(body), body, true, t);
      if !Succeeded(t) then Success((reply, vt))
      else
        var after :- ApplySandboxState(vt, vid, status, true, Answer(p, t));
        Success((reply, after))
  }

  /** `create_payment` (app.py:800-1016). A card whose expiry cannot be
      converted makes the handler raise before anything is sent. */
  function CreatePayment(p: Platform, pt: PaymentTable, c: Credentials, pd: Object,
                         useSandbox: bool, date: string, t: Transport)
    : (r: Result<(Reply, PaymentTable)>)
    ensures r.Success? && r.value.0.Rejected? <==> !Present(c)
    ensures r.Failure? ==> Present(c) && (ComposePayment(useSandbox, pd).Failure? || Succeeded(t))
    ensures r.Success? && r.value.0.Answered? ==>
      && ComposePayment(useSandbox, pd).Success?
      && r.value.0.url == ComposePayment(useSandbox, pd).value.url
      && r.value.0.envelope.bodySent == JObj(ComposePayment(useSandbox, pd).value.body)
      && SignedFor(p, c, p.dumps(JObj(ComposePayment(useSandbox, pd).value.body)), r.value.0)
    ensures r.Success? && !(Present(c) && Succeeded(t)) ==> r.value.1 == pt
    ensures r.Success? && Present(c) && Succeeded(t) ==>
      Success(r.value.1) == RecordPayment(pt, pd, useSandbox, true, Answer(p, t))
  {
    if !Present(c) then Success((Rejected(MissingCredentials), pt))
    else
      var req :- ComposePayment(useSandbox, pd);
      var body := JObj(req.body);
      var reply := Exchange(p, c, date, req.url, p.dumps(body), body, true, t);
      if !Succeeded(t) then Success((reply, pt))
      else
        var after :- RecordPayment(pt, pd, useSandbox, true, Answer(p, t));
        Success((reply, after))
  }

  /** `get_payment` (app.py:1019-1075). */
  function FetchPayment(p: Platform, pt: PaymentTable, c: Credentials, pid: string,
                        useSandbox: bool, date: string, t: Transport)
    : (r: Result<(Reply, PaymentTable)>)
    ensures r.Success? && r.value.0.Rejected? <==> !Present(c)
    ensures r.Failure? ==> Present(c) && Succeeded(t) && JStr(pid) in pt
    ensures r.Success? && r.value.0.Answered? ==>
      r.value.0.url == PaymentDetailsUrl(useSandbox, pid) && SignedFor(p, c, "", r.value.0)
    ensures r.Success? && !(Present(c) && Succeeded(t)) ==> r.value.1 == pt
    ensures r.Success? && Present(c) && Succeeded(t) ==>
      Success(r.value.1) == RefreshPayment(pt, pid, true, Answer(p, t))
  {
    if !Present(c) then Success((Rejected(MissingCredentials), pt))
    else
      var reply := Exchange(p, c, date, PaymentDetailsUrl(useSandbox, pid), "", JNull, false, t);
      var after :- RefreshPayment(pt, pid, Succeeded(t), Answer(p, t));
      Success((reply, after))
  }

  /** Fetching a payment that was never recorded answers without touching
      the ledger, whatever came back. */
  lemma FetchUnknownPaymentIsNoOp(p: Platform, pt: PaymentTable, c: Credentials, pid: string,
                                  useSandbox: bool, date: string, t: Transport)
    requires JStr(pid) !in pt
    ensures var r := FetchPayment(p, pt, c, pid, useSandbox, date, t);
      r.Success? && r.value.1 == pt
  {
    PaymentSync.RefreshUnknownIsNoOp(pt, pid, Succeeded(t), Answer(p, t));
  }
}
