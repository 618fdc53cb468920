# dLocal KYC and payments console: the deterministic core

`app.py` is a Flask console for the dLocal API. It lets an operator:

- create and follow KYC verifications for remitters and beneficiaries;
- upload their documents;
- push sandbox state changes;
- create card and instant payments;
- request payouts.

Every handler does the same four things. It signs a request with the caller's
credentials (V2 HMAC scheme). It composes a JSON body from the form. It wraps
the provider's answer in a uniform envelope. It merges a successful answer
into a local ledger of verifications, documents, payments and payouts.

This project models those four steps as pure Dafny functions over an
in-memory ledger and proves what they promise. The ledger is four maps keyed
by the identifiers the handlers look records up by.

Modules, one per concern:

| file | module | what it holds |
|---|---|---|
| `wrappers.dfy` | `Wrappers` | `Option` and `Result` (a Python exception that escapes a handler is a `Failure`) |
| `json.dfy` | `JsonValues` | decoded JSON values, Python truthiness, `dict.get` with and without defaults |
| `fields.dfy` | `Fields` | rule tables for `key: data.get(k, default)` runs, and what a copied object carries |
| `signing.dfy` | `Signing` | signed message, V2 headers, the payout payload signature |
| `envelopes.dfy` | `Envelopes` | `handle_response` / `handle_error` and header redaction |
| `verification_bodies.dfy` | `VerificationBodies` | remitter and beneficiary verification bodies |
| `payment_bodies.dfy` | `PaymentBodies` | payment body, card object, card-number sanitisation, endpoint routing |
| `payout_bodies.dfy` | `PayoutBodies` | payout body and its optional keys |
| `ledger.dfy` | `Ledger` | the four record types and tables, and well-keyedness |
| `verification_sync.dfy` | `VerificationSync` | verification upsert, refresh, sandbox state, cascade delete, approved queries |
| `document_sync.dfy` | `DocumentSync` | the document list sync and the upload status update |
| `payment_sync.dfy` | `PaymentSync` | payment upsert and refresh |
| `payout_sync.dfy` | `PayoutSync` | payout id fallback, payout upsert, the payout handler's reply |
| `routes.dfy` | `Routes` | the handlers end to end: validation, signed exchange, envelope, merge |

The foreign code the handlers call is a parameter:

- the HMAC-SHA256 digest (`Mac`);
- `json.dumps` and `json.loads` (`Platform.dumps`, `Parser`);
- Python's `float()` on the payout amount (`FloatOf`);
- the clock's reading (the `date` argument);
- the network's answer (`Transport`).

A response of an unexpected shape makes a handler raise before it commits,
for example a creation response that is not a JSON object. Such a run is a
`Failure`, and the ledger is unchanged.

Behaviours of the code a reader may not expect, which the model follows:

- **Success.** Success is `Response.ok` of the requests library: false exactly
  for statuses 400-599, so a 3xx counts as success. It is not "a 2xx status".
- **Absent expiry.** An absent or empty card expiry is sent as `null`, not
  left out of the card object.
- **Status refresh.** A refreshed status is replaced by any value the response
  has under `status`, even an empty one. A status can also move backwards,
  for example from APPROVED to CREATED (`VerificationSync.StatusRegressionAccepted`).
- **Missing client id.** A verification approved without a client id is
  offered for payments under its verification id. It is still missing from the
  approved-verifications list (`VerificationSync.ApprovedQueriesAgree`).
- **Document list sync.** The lookup in each step sees the records written by
  the earlier steps, because SQLAlchemy flushes pending rows before a query.
  An id listed twice is therefore created once and then updated.

## Model

| member | source | states |
|---|---|---|
| Signing.SignedMessage | app.py:173-179 | the signed message is the login, then the date, then the body, each recoverable at its position |
| Signing.SignedMessageDeterminesBody | app.py:173-179 | with login and date fixed, two equal signed messages have equal bodies, so a signature covers one body |
| Signing.MakeHeaders | app.py:186-194 | exactly the four V2 headers; `X-Date` is the signed date; `Authorization` is the scheme prefix followed by the signature of login, date and body |
| Signing.JsonHeaders | app.py:714-715 | the V2 headers plus `Content-Type: application/json`, the other headers unchanged |
| Signing.SignatureOf | app.py:193 | parsing an `Authorization` value: the signature after the V2 prefix, or nothing when the value lacks the prefix |
| Signing.MakeHeadersAuthenticate | app.py:173-194 | headers built for a body pass the receiver's check: re-signing the login and date they carry, with the body received, gives the signature in `Authorization` |
| Signing.PayoutHeaders | app.py:1150-1166 | the payout headers: no `Authorization`; `payload-signature` is the digest of the body text alone |
| Envelopes.Redact | app.py:301 | the echoed headers are the sent headers with only `Authorization` removed |
| Envelopes.DecodeBody | app.py:291-294 | an empty body reads as `{}`, a JSON body as its parsed value, and any other body as `{"raw": text}` |
| Envelopes.HandleResponse | app.py:289-305 | success iff the status is not 4xx/5xx; the status is kept; the response is the decoded body; the echoed headers have no `Authorization` |
| Envelopes.HandleError | app.py:308-318 | never a success; no status, no response, empty response headers; the error message and the redacted headers are kept |
| Envelopes.NormalizeShape | app.py:289-318 | whichever way the exchange ended, success iff a completed non-error exchange, an error iff unreachable, and every outbound header but `Authorization` echoed unchanged |
| VerificationBodies.BankObject | app.py:245-252 | `account_number` always; `code`, `branch` and `account_type` present iff the form's value is truthy; an empty string is never written |
| VerificationBodies.WrapReadBack | app.py:203-208 | the remittance envelope keeps its markers and top-level form values, and its client object reads back unchanged |
| VerificationBodies.AddressCarriesForm | app.py:230-237 | each address part is the form's `address_<part>` value, or "" when absent |
| VerificationBodies.RemitterClientCarriesForm | app.py:201-240 | the remitter client object carries every copied form field (documented default when absent), the REMITTER type, the address and the consent flag |
| VerificationBodies.BeneficiaryClientCarriesForm | app.py:243-282 | the beneficiary client object carries every copied form field, the BENEFICIARY type, the address and the bank object |
| VerificationBodies.RemitterBodyCarriesForm | app.py:201-240 | the whole remitter body read back: markers, notification URL, external reference and client fields |
| VerificationBodies.BeneficiaryBodyCarriesForm | app.py:243-282 | the whole beneficiary body read back the same way |
| Fields.CopyValue | app.py:837-850 | in a dict literal the value a key ends with is the one its last entry reads |
| Fields.CopyCarriesForm | app.py:1113-1131 | with distinct keys, a copied object holds each entry's form value or default |
| PaymentBodies.RemoveChar | app.py:870 | `str.replace(c, "")`: no `c` is left and every other character keeps its count |
| PaymentBodies.RemoveCharSplits | app.py:870 | removal works piecewise, so the remaining characters keep their order |
| PaymentBodies.SanitizeCardNumber | app.py:870 | the sent number has no space and no dash, and every other character keeps its count |
| PaymentBodies.SanitizeIdempotent | app.py:870 | sanitising twice is sanitising once |
| PaymentBodies.SanitizeGroupedNumber | app.py:870 | a number typed as four groups separated by space, dash and space is sent as the groups run together |
| PaymentBodies.ParseDecimal | app.py:876-877 | `int()` of a string succeeds iff it is an optional sign followed by ASCII digits, giving their value, negated after a minus sign |
| PaymentBodies.DecimalRoundTrip | app.py:876-877 | parsing the decimal rendering of a number gives the number back |
| PaymentBodies.CardBody | app.py:857-879 | a token gives a token-and-capture card; otherwise the six raw fields, with a sanitised number and expiries that are `int()` of the given value and null when absent, failing iff the number is not a string or an expiry is not an integer literal |
| PaymentBodies.Payer | app.py:826-835 | name and document always, with the caller's values or ""; email iff the caller's email is non-empty, with that value |
| PaymentBodies.CoreFields | app.py:837-850 | the copied entries, the DIRECT flow and the payer; no conditional key |
| PaymentBodies.CardPart | app.py:856-879 | a card object exactly for a card payment with a card given, failing when that card cannot be read |
| PaymentBodies.OptionalPart | app.py:852-883 | notification URL and description iff truthy, the card iff there is one, each with the caller's value |
| PaymentBodies.PaymentBody | app.py:824-886 | the body's keys, the signature flag always true, and each conditional entry present iff its condition holds |
| PaymentBodies.PaymentBodyCarriesForm | app.py:837-849 | every copied entry of a composed body holds the caller's value or the documented default |
| PaymentBodies.ComposePayment | app.py:904-911 | the URL is `/secure_payments` iff the payment is a card payment whose card has a number and neither token nor card id, and `/payments` otherwise |
| PaymentBodies.RoutingMatchesCardBody | app.py:857-911 | the secure endpoint only receives raw, sanitised card details; a tokenised card only goes to `/payments` |
| PaymentBodies.StoredCardIdNotForwarded | app.py:857-911 | a card with only a stored-card id goes to `/payments` with a raw-card object that has no `card_id` |
| PayoutBodies.PayoutCore | app.py:1113-1131 | the copied payout entries with their defaults, login, pass (the transaction key) and the signature flag |
| PayoutBodies.OptionalEntries | app.py:1134-1141 | each of the four optional keys present iff the caller's value is truthy, with that value |
| PayoutBodies.PayoutBody | app.py:1113-1141 | the union of both: copied entries, credentials, signature flag, and the optional keys iff truthy |
| Ledger.UniqueIdentifiers | app.py:30-161 | in a well-keyed ledger no two records of a table share their identifier |
| VerificationSync.ClientData | app.py:455-456 | the client data chain: an absent level reads as `{}`, a present non-object level raises |
| VerificationSync.Refreshed | app.py:461-466 | status replaced iff the response has one; user id replaced only by a truthy client id; raw response always |
| VerificationSync.Created | app.py:468-482 | a new record's fields from the form, status from the response or CREATED, user id as the response gives it |
| VerificationSync.RecordVerification | app.py:450-486 | fails iff the call succeeded and the response is not an object or has malformed client data; keeps the table well keyed |
| VerificationSync.RecordVerificationEffect | app.py:450-486 | nothing changes unless the call succeeded and the response names an id; then only that key is added or refreshed |
| VerificationSync.RecordVerificationUnique | app.py:459-482 | after the upsert exactly one record has the response's verification id |
| VerificationSync.RecordVerificationIdempotent | app.py:450-486 | replaying the same creation response changes nothing further |
| VerificationSync.RecordVerificationKeepsUserId | app.py:464-465 | a known user id is never cleared by a later response |
| VerificationSync.RefreshVerification | app.py:530-542 | only an existing record is touched, with the same status and user-id rules |
| VerificationSync.RefreshUnknownIsNoOp | app.py:532-533 | a fetch for an id with no record leaves the table unchanged |
| VerificationSync.StatusRegressionAccepted | app.py:534 | an APPROVED record moves back to CREATED when a later response says so |
| VerificationSync.ValidateStateUpdate | app.py:688-699 | the request proceeds iff all checks pass; otherwise it fails with the first failing check's message, in the handler's order |
| VerificationSync.ApplySandboxState | app.py:722-729 | an existing record takes the reported status or the requested one, and the raw response, every other field kept; other records untouched; the table stays well keyed |
| VerificationSync.DeleteVerification | app.py:353-361 | 404 iff no record has the id; otherwise the record and exactly its documents are removed, and nothing else changes |
| VerificationSync.DeleteVerificationKeyed | app.py:353-361 | in a well-keyed ledger the delete removes the documents keyed by the id and keeps the ledger well keyed |
| VerificationSync.ApprovedVerifications | app.py:740-755 | exactly the approved records with a user id, of the requested client type when one is given |
| VerificationSync.ApprovedParties | app.py:758-797 | exactly the approved records of the role; the payment user id is the user id, or the verification id when it is empty |
| VerificationSync.ApprovedQueriesAgree | app.py:740-797 | the two queries agree on records with a user id; a record without one is offered for payments but not listed as approved |
| VerificationSync.CreationScenario | app.py:450-486 | a remitter approved at once with client id U1 is listed as approved and offered under U1 |
| DocumentSync.Items | app.py:584-585 | the items are walked when they are a list, an empty string or an empty dict, and none when absent; any other value raises |
| DocumentSync.SyncStep | app.py:585-603 | an item that is not an object raises; an item without an id is skipped; otherwise only its key is added or refreshed |
| DocumentSync.SyncItemsSucceeds | app.py:585-604 | the sync fails iff some item is not an object |
| DocumentSync.SyncItemsFrame | app.py:585-603 | the keys afterwards are the old keys plus one per mentioned document; unmentioned records are untouched |
| DocumentSync.SyncItemsValue | app.py:591-603 | a mentioned document ends with the status and type of its last mention that has them; failing that its stored values; failing that PENDING and Unknown |
| DocumentSync.SyncItemsEffect | app.py:584-603 | the frame and the values together |
| DocumentSync.SyncItemsIdempotent | app.py:584-603 | syncing the same list twice gives what syncing it once gave |
| DocumentSync.SyncItemsKeyed | app.py:584-603 | the sync keeps every document under its own (verification id, document id) key |
| DocumentSync.SyncDocuments | app.py:582-604 | nothing unless the call succeeded; a non-object response or items that cannot be walked raise; otherwise the item sync |
| DocumentSync.ValidateUpload | app.py:622-630 | the upload proceeds iff credentials, a file part and a file name are present; otherwise the first failing check's message |
| DocumentSync.RecordUpload | app.py:647-655 | an existing document takes the reported status, or UPLOADED, every other field kept; an unknown document records nothing; the table stays well keyed |
| PaymentSync.Refreshed | app.py:969-975 | status, detail and code replaced iff the response has them; raw response always |
| PaymentSync.Created | app.py:976-993 | a new record: response values where present, else the request's; CREATED with empty detail and code by default |
| PaymentSync.RecordPayment | app.py:962-997 | nothing unless the call succeeded; a non-object response raises; keeps the table well keyed |
| PaymentSync.RecordPaymentEffect | app.py:962-997 | nothing changes unless a truthy id is named; then only that key is added or refreshed |
| PaymentSync.RecordPaymentIdempotent | app.py:962-997 | replaying the same creation response changes nothing further |
| PaymentSync.RefreshPayment | app.py:1063-1071 | only an existing record is touched, with the refresh rule |
| PaymentSync.RefreshUnknownIsNoOp | app.py:1065-1066 | fetching a payment with no record leaves the table unchanged, whatever the response |
| PaymentSync.RefreshAfterRecordAgrees | app.py:962-1071 | fetching details identical to the creation response changes nothing |
| PaymentSync.RefreshKeepsIdentity | app.py:1066-1071 | a refresh keeps the payment's id, amount and order id |
| PayoutSync.OrChainFirst | app.py:1208-1212 | Python's `or` chain gives the first truthy operand |
| PayoutSync.OrChainNone | app.py:1208-1212 | with no truthy operand the chain gives the last one |
| PayoutSync.ApiPayoutIdFirst | app.py:1206-1212 | the payout id is the first of id, payout_id, payment_id, cashout_id, transaction_id with a truthy value |
| PayoutSync.ApiPayoutIdNone | app.py:1206-1212 | with no truthy candidate the id found is falsy |
| PayoutSync.CashoutIdExample | app.py:1206-1212 | a response naming only a cash-out id yields that id |
| PayoutSync.Refreshed | app.py:1223-1231 | the payout id replaced only by a truthy id; status, detail and raw response only from a non-empty object response |
| PayoutSync.Created | app.py:1233-1249 | a new record with the converted amount, PENDING and empty detail by default, raw response `{}` when the response is falsy |
| PayoutSync.RecordPayout | app.py:1199-1262 | saved iff the call succeeded, the external id is truthy and the record exists or the amount converts; a failed save leaves the table unchanged and reports the conversion's message |
| PayoutSync.RecordPayoutValue | app.py:1221-1249 | a saved record is the refreshed existing one or the new one |
| PayoutSync.RecordPayoutIdempotent | app.py:1199-1262 | replaying a payout response changes nothing further |
| PayoutSync.PayoutIdKeptWithoutCandidate | app.py:1225-1226 | a response with no candidate id never clears a stored payout id |
| PayoutSync.CashoutScenario | app.py:1199-1249 | a first payout answered with only a cash-out id is stored under its external id with that payout id |
| PayoutSync.CreatePayout | app.py:1088-1273 | missing credentials are rejected; the body, URL and payout headers sent, signed over the serialised body; success iff not 4xx/5xx; the table, `saved` and `save_error` are exactly the payout merge's |
| PayoutSync.PayoutSignatureCoversBody | app.py:1147-1166 | the payload signature sent is the digest of the serialised body sent, whatever the timestamp |
| Routes.Exchange | app.py:186-194 | each signed exchange sends headers that authenticate the body text; the envelope's signature is the one in `Authorization` |
| Routes.CreateVerification | app.py:407-494 | rejection iff credentials are missing; a signed body for the client type; the ledger changes only through the upsert after a successful call |
| Routes.FetchVerification | app.py:497-550 | a signed bodiless GET with client data; the ledger changes only through the refresh after a successful call |
| Routes.FetchDocuments | app.py:553-611 | a signed bodiless GET; the ledger changes only through the document sync after a successful call |
| Routes.UploadDocument | app.py:614-661 | the upload checks in order, with the first failing check's message; the envelope's body is the file name; after a successful call the ledger is exactly the upload merge's |
| Routes.UpdateSandboxState | app.py:666-737 | the pre-flight checks, with the first failing check's message; a JSON body to the sandbox-tools URL (spelt as the provider spells it), signed over its text; after a successful call the ledger is exactly the state merge's |
| Routes.CreatePayment | app.py:800-1016 | the composed body goes to the routed URL, signed over its text; the ledger changes only after a successful call, and then exactly as the payment upsert says |
| Routes.FetchPayment | app.py:1019-1075 | a signed bodiless GET of the details URL; only an existing record is refreshed |
| Routes.FetchUnknownPaymentIsNoOp | app.py:1063-1071 | fetching a payment that was never recorded answers without touching the ledger |

## Left out

- Flask plumbing is not modelled: `request.get_json`, `jsonify`, templates, the "No data provided" reply to an empty request, and HTTP status codes of replies.
- Credentials are strings, so non-string credential values are not modelled.
- `use_sandbox` is a boolean; a non-boolean value's truthiness is not modelled.
- The transport (`requests`, sessions, prepared requests) is the `Transport` value; debug output and `print` are omitted.
- HMAC-SHA256 and `json.dumps` are parameters, so their byte formats, and hence JSON key order, are not modelled. Bodies are maps.
- `get_iso_date` and `formatdate` are the `date` / `timestamp` arguments.
- `created_at` timestamps and the newest-first ordering of the list queries are not modelled; query results are maps.
- Auto-increment local ids, the delete-by-local-id routes and `to_dict` are not modelled. The plain list routes just return table contents.
- SQLite column affinity is not modelled. A numeric provider id is not converted to text, so ids are compared as JSON values.
- Ids that are lists or objects are not modelled as errors. A provider `id` in a verification, document or payment response, or a payout `external_id`, that is a non-empty list or object is recorded under that value. The database cannot bind such a value, so the source raises at the lookups of app.py:459, 588-591 and 967, and for payouts reports `save_error` (app.py:1221, 1257-1262).
- Request parts that are not JSON objects are not modelled. The form, `payment_data` and `payout_data` are `Object`s; a list or string there makes the source raise `AttributeError`.
- Stored raw responses are the decoded values, not their serialised text.
- A commit that fails for reasons of the database is not modelled. For payouts, the one foreseeable save failure is the `float()` conversion of the amount; that function is a parameter and its message is reported as `save_error`.
- PaymentBodies.ParseDecimal: only an optional sign followed by ASCII digits is accepted; the surrounding whitespace, underscores between digits and non-ASCII decimal digits that Python's `int()` also accepts are not modelled.
- JSON numbers with a fraction are not modelled. `PyInt` covers `int()` of integers, booleans and ASCII digit strings, and not the whitespace, underscores or non-ASCII decimal digits (such as Arabic-Indic digits) Python also accepts.
- The debug fields some handlers add to their reply (`request_url`, `client_data_found`, `saved_locally`, `local_id`, `local_status_updated`, the payment `debug` block) are not modelled. The exception is the payout reply's `saved` and `save_error`.
