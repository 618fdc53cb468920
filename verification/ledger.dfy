/** The local ledger (app.py:30-161): four tables of records, each keyed by
    the identifier the handlers look records up by. A table is a map from that
    identifier to the record, so a key can hold at most one record; the
    predicates below say that each record also carries its own key.

    Column values are kept as the decoded JSON values the handlers assign.
    Auto-increment local ids and creation timestamps are not modelled, and a
    stored raw response is the response value itself rather than its
    serialised text. */
module Ledger {
  import opened JsonValues

  /** `"sandbox" if use_sandbox else "production"` */
  datatype Environment = Sandbox | Production

  function EnvironmentOf(useSandbox: bool): (e: Environment)
    ensures e == Sandbox <==> useSandbox
  {
    if useSandbox then Sandbox else Production
  }

  datatype Verification = Verification(
    verificationId: Json,
    userId: Json,
    clientType: Json,
    firstName: Json,
    lastName: Json,
    documentNumber: Json,
    externalReference: Json,
    status: Json,
    environment: Environment,
    rawResponse: Json)

  /** A document record. Its verification id always comes from a URL path
      segment, hence a string. */
  datatype Document = Document(
    verificationId: string,
    documentId: Json,
    documentType: Json,
    status: Json)

  datatype Payment = Payment(
    paymentId: Json,
    orderId: Json,
    amount: Json,
    currency: Json,
    country: Json,
    paymentMethodId: Json,
    status: Json,
    statusDetail: Json,
    statusCode: Json,
    remitterUserId: Json,
    beneficiaryUserId: Json,
    environment: Environment,
    rawResponse: Json)

  datatype Payout = Payout(
    externalId: Json,
    payoutId: Json,
    amount: Json,
    currency: Json,
    country: Json,
    bankAccount: Json,
    status: Json,
    statusDetail: Json,
    remitterUserId: Json,
    beneficiaryUserId: Json,
    purpose: Json,
    environment: Environment,
    rawResponse: Json)

  type VerificationTable = map<Json, Verification>
  /** Documents are looked up by verification id and document id together. */
  type DocumentKey = (string, Json)
  type DocumentTable = map<DocumentKey, Document>
  type PaymentTable = map<Json, Payment>
  type PayoutTable = map<Json, Payout>

  datatype Ledger = Ledger(
    verifications: VerificationTable,
    documents: DocumentTable,
    payments: PaymentTable,
    payouts: PayoutTable)

  predicate VerificationsKeyed(t: VerificationTable) {
    forall k :: k in t ==> t[k].verificationId == k
  }

  predicate DocumentsKeyed(t: DocumentTable) {
    forall k :: k in t ==> (t[k].verificationId, t[k].documentId) == k
  }

  predicate PaymentsKeyed(t: PaymentTable) {
    forall k :: k in t ==> t[k].paymentId == k
  }

  predicate PayoutsKeyed(t: PayoutTable) {
    forall k :: k in t ==> t[k].externalId == k
  }

  /** Every record sits under its own identifier. */
  predicate WellKeyed(l: Ledger) {
    && VerificationsKeyed(l.verifications)
    && DocumentsKeyed(l.documents)
    && PaymentsKeyed(l.payments)
    && PayoutsKeyed(l.payouts)
  }

  /** In a well-keyed table no two records share an identifier: the record
      with a given identifier is the one stored under it. */
  lemma UniqueIdentifiers(l: Ledger)
    requires WellKeyed(l)
    ensures forall k1, k2 ::
              (k1 in l.verifications && k2 in l.verifications &&
               l.verifications[k1].verificationId == l.verifications[k2].verificationId) ==> k1 == k2
    ensures forall k1, k2 ::
              (k1 in l.documents && k2 in l.documents &&
               l.documents[k1].verificationId == l.documents[k2].verificationId &&
               l.documents[k1].documentId == l.documents[k2].documentId) ==> k1 == k2
    ensures forall k1, k2 ::
              (k1 in l.payments && k2 in l.payments &&
               l.payments[k1].paymentId == l.payments[k2].paymentId) ==> k1 == k2
    ensures forall k1, k2 ::
              (k1 in l.payouts && k2 in l.payouts &&
               l.payouts[k1].externalId == l.payouts[k2].externalId) ==> k1 == k2
  {
  }

  const EmptyLedger: Ledger := Ledger(map[], map[], map[], map[])
}
