/** Request authentication for the provider's API (app.py:173-194).

    Two signing modes exist and are kept apart by name:
    - `Signature`: the V2 scheme, an HMAC over login, date and body, sent in
      the `Authorization` header next to `X-Date`;
    - `PayloadSignature`: the payout sub-API scheme, an HMAC over the body
      alone, sent in a `payload-signature` header.

    The HMAC-SHA256 digest itself is foreign code: every member takes it as a
    parameter `mac(key, message)` returning the lowercase hex digest. */
module Signing {
  import opened Wrappers

  type Mac = (string, string) -> string
  type Headers = map<string, string>

  /** The caller's credentials, as the handlers read them from the request. */
  datatype Credentials = Credentials(login: string, transKey: string, secret: string)

  /** `all([login, transaction_key, secret_key])`: every credential non-empty. */
  predicate Present(c: Credentials) {
    c.login != "" && c.transKey != "" && c.secret != ""
  }

  const AuthorizationScheme: string := "V2-HMAC-SHA256, Signature: "

  /** The header names `make_headers` produces. */
  const V2HeaderNames: set<string> := {"X-Date", "X-Login", "X-Trans-Key", "Authorization"}

  /** The message that is signed: the login, then the date, then the body
      (the empty string for a request without a body). */
  function SignedMessage(login: string, date: string, body: string): (msg: string)
    ensures |msg| == |login| + |date| + |body|
    ensures msg[..|login|] == login
    ensures msg[|login|..|login| + |date|] == date
    ensures msg[|login| + |date|..] == body
  {
    login + date + body
  }

  /** `generate_signature`: the digest of the signed message under the secret key. */
  function Signature(mac: Mac, login: string, secret: string, date: string, body: string): string {
    mac(secret, SignedMessage(login, date, body))
  }

  /** `make_headers`: the V2 header set for one request. */
  function MakeHeaders(mac: Mac, login: string, transKey: string, secret: string,
                       date: string, body: string): (h: Headers)
    ensures h.Keys == V2HeaderNames
    ensures h["X-Date"] == date && h["X-Login"] == login && h["X-Trans-Key"] == transKey
    ensures h["Authorization"] == AuthorizationScheme + Signature(mac, login, secret, date, body)
  {
    map[
      "X-Date" := date,
      "X-Login" := login,
      "X-Trans-Key" := transKey,
      "Authorization" := AuthorizationScheme + Signature(mac, login, secret, date, body)
    ]
  }

  /** The same header set with `Content-Type: application/json` added, as sent
      with a raw JSON body (payment creation, sandbox state update). */
  function JsonHeaders(mac: Mac, login: string, transKey: string, secret: string,
                       date: string, body: string): (h: Headers)
    ensures h.Keys == V2HeaderNames + {"Content-Type"}
    ensures h["Content-Type"] == "application/json"
    ensures forall k :: k in V2HeaderNames ==> h[k] == MakeHeaders(mac, login, transKey, secret, date, body)[k]
  {
    MakeHeaders(mac, login, transKey, secret, date, body)["Content-Type" := "application/json"]
  }

  /** The signature carried by an `Authorization` value, if it has the V2 shape. */
  function SignatureOf(authorization: string): (r: Option<string>)
    ensures r.Some? ==> authorization == AuthorizationScheme + r.value
    ensures r.None? ==> forall s :: authorization != AuthorizationScheme + s
  {
    var n := |AuthorizationScheme|;
    if n <= |authorization| && authorization[..n] == AuthorizationScheme
    then
      assert authorization == AuthorizationScheme + authorization[n..];
      Some(authorization[n..])
    else
      None
  }

  /** What the provider checks on receipt: recompute the digest from the login
      and date that travelled in the headers and the body that was received. */
  predicate Authenticates(mac: Mac, secret: string, h: Headers, body: string) {
    && "X-Login" in h && "X-Date" in h && "Authorization" in h
    && SignatureOf(h["Authorization"]) == Some(mac(secret, h["X-Login"] + h["X-Date"] + body))
  }

  /** Headers built by `make_headers` pass the provider's check for the body
      they were built for: the date that was signed is the date sent. */
  lemma MakeHeadersAuthenticate(mac: Mac, login: string, transKey: string, secret: string,
                                date: string, body: string)
    ensures Authenticates(mac, secret, MakeHeaders(mac, login, transKey, secret, date, body), body)
    ensures Authenticates(mac, secret, JsonHeaders(mac, login, transKey, secret, date, body), body)
  {
    var sig := Signature(mac, login, secret, date, body);
    var h := MakeHeaders(mac, login, transKey, secret, date, body);
    assert SignatureOf(h["Authorization"]) == Some(sig) by {
      var a := h["Authorization"];
      assert a == AuthorizationScheme + sig;
      assert a[..|AuthorizationScheme|] == AuthorizationScheme;
      assert a[|AuthorizationScheme|..] == sig;
    }
  }

  /** The signed message determines the body once login and date are fixed, so
      a signature covers exactly one body. */
  lemma SignedMessageDeterminesBody(login: string, date: string, b1: string, b2: string)
    requires SignedMessage(login, date, b1) == SignedMessage(login, date, b2)
    ensures b1 == b2
  {
    var m := SignedMessage(login, date, b1);
    assert b1 == m[|login| + |date|..];
  }

  /** The payout sub-API's signature: the digest of the serialised body alone. */
  function PayloadSignature(mac: Mac, secret: string, bodyJson: string): string {
    mac(secret, bodyJson)
  }

  /** The payout header set (app.py:1160-1166): no `Authorization` header; the
      date is an RFC 1123 timestamp that is not part of what is signed. */
  function PayoutHeaders(mac: Mac, login: string, transKey: string, secret: string,
                         timestamp: string, bodyJson: string): (h: Headers)
    ensures h.Keys == {"Content-Type", "X-Date", "X-Login", "X-Trans-Key", "payload-signature"}
    ensures "Authorization" !in h
    ensures h["payload-signature"] == mac(secret, bodyJson)
    ensures h["X-Date"] == timestamp && h["X-Login"] == login && h["X-Trans-Key"] == transKey
  {
    map[
      "Content-Type" := "application/json",
      "X-Date" := timestamp,
      "X-Login" := login,
      "X-Trans-Key" := transKey,
      "payload-signature" := PayloadSignature(mac, secret, bodyJson)
    ]
  }
}
