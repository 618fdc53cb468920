/** The payout request (app.py:1113-1145): a cash-out body that carries the
    caller's login and transaction key next to the payout data. */
module PayoutBodies {
  import opened JsonValues
  import opened Fields
  import opened PaymentBodies

  const PayoutPath: string := "/api_curl/cashout_api/request_cashout"

  /** The payout endpoint. The payout hosts (app.py:1083-1084) have the same
      values as the payment hosts. */
  function PayoutUrl(useSandbox: bool): string {
    BaseUrl(useSandbox) + PayoutPath
  }

  /** The entries copied from the payout data, each with its default. */
  const PayoutRules: seq<FieldRule> := PayoutAccountRules + PayoutTransferRules

  /** The reference, the country and the destination account. */
  const PayoutAccountRules: seq<FieldRule> := [
    Same("external_id"),
    FieldRule("country", "country", JStr("AR")),
    FieldRule("bank_code", "bank_code", JStr("0")),
    Same("bank_name"), Same("bank_province"), Same("bank_account"),
    FieldRule("account_type", "account_type", JStr("C"))
  ]

  /** The amount, the parties and the declared purpose. */
  const PayoutTransferRules: seq<FieldRule> := [
    FieldRule("amount", "amount", JStr("0.00")),
    FieldRule("currency", "currency", JStr("ARS")),
    FieldRule("purpose", "purpose", JStr("EPREMT")),
    Same("remitter_user_id"), Same("beneficiary_user_id"),
    FieldRule("subpurpose", "subpurpose", JStr("EPREFA")),
    FieldRule("source_of_funds", "source_of_funds", JStr("SAVINGS"))
  ]

  /** The keys written from the credentials and the signature flag. */
  const PayoutFixedKeys: set<string> := {"login", "pass", "signature"}

  /** The keys added only when the caller gives them a truthy value. */
  const PayoutOptionalKeys: set<string> :=
    {"notification_url", "beneficiary_name", "beneficiary_document", "beneficiary_document_type"}

  /** The keys the payout body may hold besides the copied ones. */
  const PayoutExtraKeys: set<string> := PayoutFixedKeys + PayoutOptionalKeys

  lemma PayoutRulesDistinct()
    ensures DistinctKeys(PayoutRules)
  {
    assert DistinctKeys(PayoutAccountRules);
    assert DistinctKeys(PayoutTransferRules);
    PayoutHalvesDisjoint();
    DistinctKeysJoin(PayoutAccountRules, PayoutTransferRules);
  }

  lemma PayoutHalvesDisjoint()
    ensures forall i, j :: 0 <= i < |PayoutAccountRules| && 0 <= j < |PayoutTransferRules| ==>
              PayoutAccountRules[i].key != PayoutTransferRules[j].key
  {
  }

  lemma PayoutRulesAvoidExtra()
    ensures forall i :: 0 <= i < |PayoutRules| ==> PayoutRules[i].key !in PayoutExtraKeys
  {
  }

  lemma PayoutRulesWellFormed()
    ensures DistinctKeys(PayoutRules)
    ensures forall i :: 0 <= i < |PayoutRules| ==> PayoutRules[i].key !in PayoutExtraKeys
    ensures KeysOf(PayoutRules) !! PayoutExtraKeys
  {
    PayoutRulesDistinct();
    PayoutRulesAvoidExtra();
    KeysOfExcludes(PayoutRules, PayoutExtraKeys);
  }

  /** No optional key is written by the core of the body. */
  lemma OptionalKeysOutsideCore()
    ensures PayoutOptionalKeys !! KeysOf(PayoutRules) + PayoutFixedKeys
  {
    PayoutRulesWellFormed();
  }

  /** The body before the optional entries: the copied payout data, the
      credentials and the signature flag. */
  function PayoutCore(login: string, transKey: string, pd: Object): (core: Object)
    ensures CarriesForm(core, pd, PayoutRules)
    ensures "login" in core && core["login"] == JStr(login)
    ensures "pass" in core && core["pass"] == JStr(transKey)
    ensures "signature" in core && core["signature"] == JBool(true)
    ensures core.Keys == KeysOf(PayoutRules) + PayoutFixedKeys
  {
    var copied := Copy(pd, PayoutRules);
    var extra := map["login" := JStr(login), "pass" := JStr(transKey), "signature" := JBool(true)];
    assert CarriesForm(copied + extra, pd, PayoutRules) by {
      PayoutRulesWellFormed();
      CopyCarriesForm(pd, PayoutRules);
      CarriesFormAfterUpdates(copied, extra, pd, PayoutRules);
    }
    assert extra.Keys == PayoutFixedKeys;
    copied + extra
  }

  /** The four optional entries, each present exactly when the caller gives
      it a truthy value. */
  function OptionalEntries(pd: Object): (m: Object)
    ensures m.Keys <= PayoutOptionalKeys
    ensures forall k :: k in PayoutOptionalKeys ==>
              && (k in m <==> Truthy(Get(pd, k)))
              && (k in m ==> m[k] == pd[k])
  {
    var m := PutIfTruthy(map[], "notification_url", Get(pd, "notification_url"));
    var m := PutIfTruthy(m, "beneficiary_name", Get(pd, "beneficiary_name"));
    var m := PutIfTruthy(m, "beneficiary_document", Get(pd, "beneficiary_document"));
    PutIfTruthy(m, "beneficiary_document_type", Get(pd, "beneficiary_document_type"))
  }

  /** The payout body: the core entries as `PayoutCore` gives them, and each
      optional entry exactly when the caller gives it a truthy value. The
      optional entries use keys the core does not, so the body is the union
      of the two. */
  function PayoutBody(login: string, transKey: string, pd: Object): (body: Object)
    ensures CarriesForm(body, pd, PayoutRules)
    ensures "login" in body && body["login"] == JStr(login)
    ensures "pass" in body && body["pass"] == JStr(transKey)
    ensures "signature" in body && body["signature"] == JBool(true)
    ensures KeysOf(PayoutRules) + PayoutFixedKeys <= body.Keys <= KeysOf(PayoutRules) + PayoutExtraKeys
    ensures forall k :: k in PayoutOptionalKeys ==>
              && (k in body <==> Truthy(Get(pd, k)))
              && (k in body ==> body[k] == pd[k])
  {
    var core := PayoutCore(login, transKey, pd);
    var optional := OptionalEntries(pd);
    OptionalKeysOutsideCore();
    assert CarriesForm(core + optional, pd, PayoutRules) by {
      PayoutRulesWellFormed();
      CarriesFormAfterUnion(core, optional, PayoutExtraKeys, pd, PayoutRules);
    }
    core + optional
  }
}
