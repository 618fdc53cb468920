/** The uniform result envelope (`handle_response` and `handle_error`,
    app.py:289-318) built from the outcome of one outbound HTTP exchange.
    The network call itself is outside the model: its outcome arrives as a
    `Transport` value. */
module Envelopes {
  import opened Wrappers
  import opened JsonValues
  import opened Signing

  /** The outcome of the transport call: a completed exchange, or a
      connection-level failure (`requests.exceptions.RequestException`). */
  datatype Transport =
    | Completed(status: int, text: string, headers: Headers)
    | Unreachable(reason: string)

  /** `json.loads`, which is foreign code: `None` when the text is not JSON. */
  type Parser = string -> Option<Json>

  /** `Response.ok` of the requests library: false exactly for 4xx and 5xx. */
  predicate IsOk(status: int) {
    !(400 <= status < 600)
  }

  /** The decoded response body: `{}` for an empty body, the parsed value when
      it is JSON, and `{"raw": text}` otherwise. */
  function DecodeBody(parse: Parser, text: string): (r: Json)
    ensures text == "" ==> r == JObj(map[])
    ensures text != "" && parse(text).Some? ==> r == parse(text).value
    ensures text != "" && parse(text).None? ==> r == JObj(map["raw" := JStr(text)])
  {
    if text == "" then JObj(map[])
    else match parse(text)
      case Some(j) => j
      case None => JObj(map["raw" := JStr(text)])
  }

  /** The outbound headers as echoed back to the caller: the credential-bearing
      `Authorization` header is dropped and every other header is kept. */
  function Redact(h: Headers): (r: Headers)
    ensures r == h - {"Authorization"}
  {
    map k | k in h && k != "Authorization" :: h[k]
  }

  datatype Envelope = Envelope(
    success: bool,
    statusCode: Option<int>,
    response: Option<Json>,
    error: Option<string>,
    responseHeaders: Headers,
    headersSent: Headers,
    signature: string,
    date: string,
    bodySent: Json)

  /** `handle_response`: the envelope of a completed exchange. */
  function HandleResponse(parse: Parser, status: int, text: string, responseHeaders: Headers,
                          sent: Headers, signature: string, date: string, bodySent: Json): (e: Envelope)
    ensures e.success <==> IsOk(status)
    ensures e.statusCode == Some(status) && e.error == None
    ensures e.response == Some(DecodeBody(parse, text))
    ensures e.responseHeaders == responseHeaders
    ensures e.headersSent == sent - {"Authorization"}
    ensures e.signature == signature && e.date == date && e.bodySent == bodySent
  {
    Envelope(IsOk(status), Some(status), Some(DecodeBody(parse, text)), None,
             responseHeaders, Redact(sent), signature, date, bodySent)
  }

  /** `handle_error`: the envelope of a transport failure. It never carries a
      status code, a response body or response headers. */
  function HandleError(reason: string, sent: Headers, signature: string, date: string,
                       bodySent: Json): (e: Envelope)
    ensures !e.success
    ensures e.statusCode == None && e.response == None && e.error == Some(reason)
    ensures e.responseHeaders == map[]
    ensures e.headersSent == sent - {"Authorization"}
    ensures e.signature == signature && e.date == date && e.bodySent == bodySent
  {
    Envelope(false, None, None, Some(reason), map[], Redact(sent), signature, date, bodySent)
  }

  /** The envelope for whichever way the exchange ended. */
  function Normalize(parse: Parser, t: Transport, sent: Headers, signature: string,
                     date: string, bodySent: Json): Envelope
  {
    match t
    case Completed(status, text, rh) => HandleResponse(parse, status, text, rh, sent, signature, date, bodySent)
    case Unreachable(reason) => HandleError(reason, sent, signature, date, bodySent)
  }

  /** Whatever happened on the wire, the envelope reports success exactly for a
      completed non-error exchange, and it echoes every outbound header except
      `Authorization`, unchanged. */
  lemma NormalizeShape(parse: Parser, t: Transport, sent: Headers, signature: string,
                       date: string, bodySent: Json)
    ensures var e := Normalize(parse, t, sent, signature, date, bodySent);
      && (e.success <==> t.Completed? && IsOk(t.status))
      && (e.error.Some? <==> t.Unreachable?)
      && "Authorization" !in e.headersSent
      && (forall k :: k in sent && k != "Authorization" ==> k in e.headersSent && e.headersSent[k] == sent[k])
      && e.headersSent.Keys <= sent.Keys
  {
  }
}
