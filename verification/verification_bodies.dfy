/** Request bodies for KYC verification creation (app.py:201-282).

    Every client field is copied from the caller's form with `get(k, default)`,
    so a field the form supplies is carried verbatim (even when it is empty)
    and an absent one takes its documented default. The only exceptions are
    the beneficiary's optional bank sub-fields, which are present exactly when
    the form gives them a truthy value. */
module VerificationBodies {
  import opened JsonValues
  import opened Fields

  /** The copied client fields of a remitter (address and consent aside),
      in the source's order: identity fields, then contact and declarations. */
  const RemitterClientRules: seq<FieldRule> := RemitterIdentityRules + RemitterProfileRules

  const RemitterIdentityRules: seq<FieldRule> := [
    Same("first_name"), Same("last_name"),
    FieldRule("document_type", "document_type", JStr("TAX_ID")),
    Same("document_number"), Same("document_country"), Same("date_of_birth"),
    Same("place_of_birth"),
    FieldRule("gender", "gender", JStr("MALE"))
  ]

  const RemitterProfileRules: seq<FieldRule> := [
    Same("nationality"), Same("marital_status"), Same("phone"), Same("email"),
    FieldRule("is_pep", "is_pep", JBool(false)),
    FieldRule("is_so", "is_so", JBool(false)),
    Same("profession"), Same("source_of_funds")
  ]

  /** The copied client fields of a beneficiary (address and bank aside). */
  const BeneficiaryClientRules: seq<FieldRule> := [
    Same("first_name"), Same("last_name"), Same("nationality"),
    FieldRule("document_type", "document_type", JStr("TAX_ID")),
    Same("document_number"), Same("document_country"), Same("date_of_birth"),
    Same("place_of_birth"), Same("phone"), Same("email")
  ]

  /** The address object: each part read from the form key `address_<part>`. */
  const AddressRules: seq<FieldRule> := [
    FieldRule("address_country", "country", Empty),
    FieldRule("address_city", "city", Empty),
    FieldRule("address_zip_code", "zip_code", Empty),
    FieldRule("address_state", "state", Empty),
    FieldRule("address_street_name", "street_name", Empty),
    FieldRule("address_street_number", "street_number", Empty)
  ]

  /** The keys a client object holds besides its copied fields. */
  const StructuredKeys: set<string> := {"type", "consent", "address", "bank"}

  lemma RemitterRulesDistinct()
    ensures DistinctKeys(RemitterClientRules)
  {
    assert DistinctKeys(RemitterIdentityRules);
    assert DistinctKeys(RemitterProfileRules);
    RemitterHalvesDisjoint();
    DistinctKeysJoin(RemitterIdentityRules, RemitterProfileRules);
  }

  lemma RemitterHalvesDisjoint()
    ensures forall i, j :: 0 <= i < |RemitterIdentityRules| && 0 <= j < |RemitterProfileRules| ==>
              RemitterIdentityRules[i].key != RemitterProfileRules[j].key
  {
  }

  lemma RemitterRulesAvoidStructured()
    ensures forall i :: 0 <= i < |RemitterClientRules| ==> RemitterClientRules[i].key !in StructuredKeys
  {
  }

  lemma RemitterRulesWellFormed()
    ensures DistinctKeys(RemitterClientRules)
    ensures forall i :: 0 <= i < |RemitterClientRules| ==> RemitterClientRules[i].key !in StructuredKeys
  {
    RemitterRulesDistinct();
    RemitterRulesAvoidStructured();
  }

  lemma BeneficiaryRulesDistinct()
    ensures DistinctKeys(BeneficiaryClientRules)
  {
  }

  lemma BeneficiaryRulesAvoidStructured()
    ensures forall i :: 0 <= i < |BeneficiaryClientRules| ==> BeneficiaryClientRules[i].key !in StructuredKeys
  {
  }

  lemma BeneficiaryRulesWellFormed()
    ensures DistinctKeys(BeneficiaryClientRules)
    ensures forall i :: 0 <= i < |BeneficiaryClientRules| ==> BeneficiaryClientRules[i].key !in StructuredKeys
  {
    BeneficiaryRulesDistinct();
    BeneficiaryRulesAvoidStructured();
  }

  lemma AddressRulesWellFormed()
    ensures DistinctKeys(AddressRules)
  {
  }

  /** The envelope shared by both client kinds around a client object. */
  function Wrap(form: Object, client: Object): Json {
    JObj(map[
      "type" := JStr("REMITTANCE"),
      "notification_url" := GetOr(form, "notification_url", Empty),
      "attributes" := JObj(map[
        "external_reference" := GetOr(form, "external_reference", Empty),
        "client" := JObj(client)
      ])
    ])
  }

  /** The client object of a remitter body. */
  function RemitterClient(form: Object): Object {
    var consent := map["type" := JStr("TERMS_AND_CONDITIONS"),
                       "accepted" := GetOr(form, "consent_accepted", JBool(true))];
    Copy(form, RemitterClientRules) + map[
      "type" := JStr("REMITTER"),
      "consent" := JObj(consent),
      "address" := JObj(Copy(form, AddressRules))]
  }

  /** `create_remitter_body` */
  function RemitterBody(form: Object): Json {
    Wrap(form, RemitterClient(form))
  }

  /** The beneficiary's bank object: `account_number` always, each optional
      sub-field only when the form gives it a truthy value. */
  function BankObject(form: Object): (bank: Object)
    ensures bank.Keys <= {"account_number", "code", "branch", "account_type"}
    ensures "account_number" in bank && bank["account_number"] == GetOr(form, "bank_account_number", Empty)
    ensures ("code" in bank) <==> Truthy(Get(form, "bank_code"))
    ensures ("branch" in bank) <==> Truthy(Get(form, "bank_branch"))
    ensures ("account_type" in bank) <==> Truthy(Get(form, "bank_account_type"))
    ensures "code" in bank ==> bank["code"] == form["bank_code"]
    ensures "branch" in bank ==> bank["branch"] == form["bank_branch"]
    ensures "account_type" in bank ==> bank["account_type"] == form["bank_account_type"]
    ensures forall k :: k in bank && k != "account_number" ==> Truthy(bank[k]) && bank[k] != Empty
  {
    var bank := map["account_number" := GetOr(form, "bank_account_number", Empty)];
    var bank := PutIfTruthy(bank, "code", Get(form, "bank_code"));
    var bank := PutIfTruthy(bank, "branch", Get(form, "bank_branch"));
    PutIfTruthy(bank, "account_type", Get(form, "bank_account_type"))
  }

  /** The client object of a beneficiary body. */
  function BeneficiaryClient(form: Object): Object {
    Copy(form, BeneficiaryClientRules) + map[
      "type" := JStr("BENEFICIARY"),
      "bank" := JObj(BankObject(form)),
      "address" := JObj(Copy(form, AddressRules))]
  }

  /** `create_beneficiary_body` */
  function BeneficiaryBody(form: Object): Json {
    Wrap(form, BeneficiaryClient(form))
  }

  /** The body sent for a given `client_type`: anything but "BENEFICIARY"
      (including an absent type) builds a remitter body. */
  function VerificationBody(clientType: Json, form: Object): Json {
    if clientType == JStr("BENEFICIARY") then BeneficiaryBody(form) else RemitterBody(form)
  }

  /** `j[k]` read as an object; empty when `j` is not an object, lacks `k`, or
      holds a non-object there. */
  function Child(j: Json, k: string): Object {
    if j.JObj? && k in j.fields && j.fields[k].JObj? then j.fields[k].fields else map[]
  }

  /** The client object of a verification body, read back. */
  function ClientOf(body: Json): Object {
    Child(JObj(Child(body, "attributes")), "client")
  }

  /** The envelope keeps its markers and the form's top-level values, and
      the client object reads back unchanged. */
  lemma WrapReadBack(form: Object, client: Object)
    ensures var body := Wrap(form, client);
      && body.JObj? && body.fields["type"] == JStr("REMITTANCE")
      && body.fields["notification_url"] == GetOr(form, "notification_url", Empty)
      && Child(body, "attributes")["external_reference"] == GetOr(form, "external_reference", Empty)
      && ClientOf(body) == client
  {
  }

  /** The address object carries the form's `address_<part>` values. */
  lemma AddressCarriesForm(form: Object)
    ensures CarriesForm(Copy(form, AddressRules), form, AddressRules)
  {
    AddressRulesWellFormed();
    CopyCarriesForm(form, AddressRules);
  }

  /** Reading the copied fields back out of a remitter's client object gives
      the form's values unchanged (and the documented defaults for absent
      keys), in the client object and in its address. */
  lemma {:induction false} RemitterClientCarriesForm(form: Object)
    ensures var client := RemitterClient(form);
      && client["type"] == JStr("REMITTER")
      && CarriesForm(client, form, RemitterClientRules)
      && CarriesForm(Child(JObj(client), "address"), form, AddressRules)
      && Child(JObj(client), "consent")["accepted"] == GetOr(form, "consent_accepted", JBool(true))
  {
    var consent := map["type" := JStr("TERMS_AND_CONDITIONS"),
                       "accepted" := GetOr(form, "consent_accepted", JBool(true))];
    var extra := map["type" := JStr("REMITTER"), "consent" := JObj(consent),
                     "address" := JObj(Copy(form, AddressRules))];
    RemitterRulesWellFormed();
    CopyThenUpdate(form, RemitterClientRules, extra);
    AddressCarriesForm(form);
  }

  /** The same read-back for a beneficiary's client object; its bank object
      has the optional sub-fields exactly when the form gives them a value. */
  lemma {:induction false} BeneficiaryClientCarriesForm(form: Object)
    ensures var client := BeneficiaryClient(form);
      && client["type"] == JStr("BENEFICIARY")
      && CarriesForm(client, form, BeneficiaryClientRules)
      && CarriesForm(Child(JObj(client), "address"), form, AddressRules)
      && Child(JObj(client), "bank") == BankObject(form)
  {
    var extra := map["type" := JStr("BENEFICIARY"), "bank" := JObj(BankObject(form)),
                     "address" := JObj(Copy(form, AddressRules))];
    BeneficiaryRulesWellFormed();
    CopyThenUpdate(form, BeneficiaryClientRules, extra);
    AddressCarriesForm(form);
  }

  /** A whole remitter body: the remittance markers, the top-level form
      values and the client read-back above. */
  lemma RemitterBodyCarriesForm(form: Object)
    ensures var body := RemitterBody(form);
      && body.JObj? && body.fields["type"] == JStr("REMITTANCE")
      && body.fields["notification_url"] == GetOr(form, "notification_url", Empty)
      && Child(body, "attributes")["external_reference"] == GetOr(form, "external_reference", Empty)
      && ClientOf(body)["type"] == JStr("REMITTER")
      && CarriesForm(ClientOf(body), form, RemitterClientRules)
  {
    WrapReadBack(form, RemitterClient(form));
    RemitterClientCarriesForm(form);
  }

  /** A whole beneficiary body, read back the same way. */
  lemma BeneficiaryBodyCarriesForm(form: Object)
    ensures var body := BeneficiaryBody(form);
      && body.JObj? && body.fields["type"] == JStr("REMITTANCE")
      && body.fields["notification_url"] == GetOr(form, "notification_url", Empty)
      && Child(body, "attributes")["external_reference"] == GetOr(form, "external_reference", Empty)
      && ClientOf(body)["type"] == JStr("BENEFICIARY")
      && CarriesForm(ClientOf(body), form, BeneficiaryClientRules)
  {
    WrapReadBack(form, BeneficiaryClient(form));
    BeneficiaryClientCarriesForm(form);
  }
}
