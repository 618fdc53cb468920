/** The payment request (app.py:824-911): its body, the card sub-object and
    the choice of endpoint. */
module PaymentBodies {
  import opened Wrappers
  import opened JsonValues
  import opened Fields

  const SandboxBase: string := "https://sandbox.dlocal.com"
  const ProductionBase: string := "https://api.dlocal.com"

  /** `get_base_url`: the sandbox or the production host. */
  function BaseUrl(useSandbox: bool): string {
    if useSandbox then SandboxBase else ProductionBase
  }

  // ---------------------------------------------------------------------
  // Card number sanitisation: `number.replace(" ", "").replace("-", "")`
  // ---------------------------------------------------------------------

  /** `s.replace(c, "")`: every occurrence of `c` removed, every other
      character kept, with its multiplicity. */
  function RemoveChar(s: string, c: char): (r: string)
    ensures c !in r
    ensures |r| <= |s|
    ensures forall x :: x != c ==> multiset(r)[x] == multiset(s)[x]
    decreases |s|
  {
    if |s| == 0 then ""
    else
      var rest := RemoveChar(s[1..], c);
      assert s == [s[0]] + s[1..];
      if s[0] == c then rest else [s[0]] + rest
  }

  /** Removing a character works piecewise, so the characters that remain keep
      their relative order. */
  lemma {:induction false} RemoveCharSplits(a: string, b: string, c: char)
    ensures RemoveChar(a + b, c) == RemoveChar(a, c) + RemoveChar(b, c)
    decreases |a|
  {
    if |a| == 0 {
      assert a + b == b;
    } else {
      assert (a + b)[1..] == a[1..] + b;
      RemoveCharSplits(a[1..], b, c);
    }
  }

  /** A string without `c` is left as it is. */
  lemma {:induction false} RemoveCharAbsent(s: string, c: char)
    requires c !in s
    ensures RemoveChar(s, c) == s
    decreases |s|
  {
    if |s| > 0 {
      assert c !in s[1..] by {
        forall i | 0 <= i < |s[1..]| ensures s[1..][i] != c {
          assert s[1..][i] == s[i + 1];
        }
      }
      RemoveCharAbsent(s[1..], c);
    }
  }

  /** The card number as sent: spaces and dashes removed, nothing else
      touched. */
  function SanitizeCardNumber(s: string): (r: string)
    ensures ' ' !in r && '-' !in r
    ensures forall x :: x != ' ' && x != '-' ==> multiset(r)[x] == multiset(s)[x]
  {
    var spaceless := RemoveChar(s, ' ');
    var r := RemoveChar(spaceless, '-');
    assert multiset(spaceless)[' '] == 0;
    assert multiset(r)[' '] == multiset(spaceless)[' '];
    r
  }

  /** Sanitising twice is sanitising once. */
  lemma SanitizeIdempotent(s: string)
    ensures SanitizeCardNumber(SanitizeCardNumber(s)) == SanitizeCardNumber(s)
  {
    var r := SanitizeCardNumber(s);
    RemoveCharAbsent(r, ' ');
    RemoveCharAbsent(r, '-');
  }

  /** Sanitising works piecewise. */
  lemma SanitizeSplits(a: string, b: string)
    ensures SanitizeCardNumber(a + b) == SanitizeCardNumber(a) + SanitizeCardNumber(b)
  {
    RemoveCharSplits(a, b, ' ');
    RemoveCharSplits(RemoveChar(a, ' '), RemoveChar(b, ' '), '-');
  }

  /** A separator on its own sanitises to nothing; a string without
      separators is left as it is. */
  lemma SanitizePieces(g: string)
    requires ' ' !in g && '-' !in g
    ensures SanitizeCardNumber(" ") == "" && SanitizeCardNumber("-") == ""
    ensures SanitizeCardNumber(g) == g
  {
    RemoveCharAbsent(g, ' ');
    RemoveCharAbsent(g, '-');
    assert RemoveChar(" ", ' ') == "";
    assert RemoveChar("-", ' ') == "-";
    assert RemoveChar("-", '-') == "";
  }

  /** A number typed in four groups separated by a space, a dash and a space
      (as in "4111 1111-1111 1111") is sent as the groups run together. */
  lemma SanitizeGroupedNumber(g1: string, g2: string, g3: string, g4: string)
    requires ' ' !in g1 && '-' !in g1 && ' ' !in g2 && '-' !in g2
    requires ' ' !in g3 && '-' !in g3 && ' ' !in g4 && '-' !in g4
    ensures SanitizeCardNumber(g1 + " " + g2 + "-" + g3 + " " + g4) == g1 + g2 + g3 + g4
  {
    SanitizePieces(g1);
    SanitizePieces(g2);
    SanitizePieces(g3);
    SanitizePieces(g4);
    SanitizeSplits(g1 + " " + g2 + "-" + g3 + " ", g4);
    SanitizeSplits(g1 + " " + g2 + "-" + g3, " ");
    SanitizeSplits(g1 + " " + g2 + "-", g3);
    SanitizeSplits(g1 + " " + g2, "-");
    SanitizeSplits(g1 + " ", g2);
    SanitizeSplits(g1, " ");
  }

  // ---------------------------------------------------------------------
  // Integer conversion of the expiry fields: Python's `int(v)`
  // ---------------------------------------------------------------------

  predicate IsDigit(c: char) {
    '0' <= c <= '9'
  }

  predicate AllDigits(s: string) {
    |s| > 0 && forall i :: 0 <= i < |s| ==> IsDigit(s[i])
  }

  function DigitsValue(s: string): nat
    requires forall i :: 0 <= i < |s| ==> IsDigit(s[i])
    decreases |s|
  {
    if |s| == 0 then 0
    else
      var last := s[|s| - 1];
      assert IsDigit(last);
      DigitsValue(s[..|s| - 1]) * 10 + (last as int - '0' as int)
  }

  /** `int(s)` for a string: an optional sign followed by decimal digits. */
  function ParseDecimal(s: string): (r: Result<int>)
    ensures r.Success? <==> AllDigits(s) || (|s| > 0 && (s[0] == '+' || s[0] == '-') && AllDigits(s[1..]))
    ensures r.Success? && AllDigits(s) ==> r.value == DigitsValue(s)
    ensures r.Success? && |s| > 0 && s[0] == '-' ==> r.value == -(DigitsValue(s[1..]) as int)
    ensures r.Success? && |s| > 0 && s[0] == '+' ==> r.value == DigitsValue(s[1..])
  {
    if |s| > 0 && (s[0] == '+' || s[0] == '-') then
      if AllDigits(s[1..]) then
        var magnitude: int := DigitsValue(s[1..]);
        Success(if s[0] == '-' then -magnitude else magnitude)
      else
        Failure("ValueError: invalid literal for int()")
    else if AllDigits(s) then Success(DigitsValue(s))
    else Failure("ValueError: invalid literal for int()")
  }

  /** The decimal rendering of a natural number, the partner of `ParseDecimal`. */
  function Decimal(n: nat): (s: string)
    ensures forall i :: 0 <= i < |s| ==> IsDigit(s[i])
    ensures |s| > 0
    decreases n
  {
    var d := ['0' + ((n % 10) as char)];
    if n < 10 then d else Decimal(n / 10) + d
  }

  /** Reading back a rendered number gives the number. */
  lemma {:induction false} DecimalRoundTrip(n: nat)
    ensures DigitsValue(Decimal(n)) == n
    ensures ParseDecimal(Decimal(n)) == Success(n)
    decreases n
  {
    var s := Decimal(n);
    if n >= 10 {
      DecimalRoundTrip(n / 10);
      assert s[..|s| - 1] == Decimal(n / 10);
    }
  }

  /** `int(v)` for a decoded JSON value. */
  function PyInt(v: Json): Result<int> {
    match v
    case JInt(i) => Success(i)
    case JBool(b) => Success(if b then 1 else 0)
    case JStr(s) => ParseDecimal(s)
    case _ => Failure("TypeError: int() argument must be a string or a number")
  }

  // ---------------------------------------------------------------------
  // The card object
  // ---------------------------------------------------------------------

  /** `capture_value == "true" or capture_value is True` */
  predicate Capture(v: Json) {
    v == JStr("true") || v == JBool(true)
  }

  /** An expiry field: an integer when the input is truthy, null otherwise. */
  function Expiry(card: Object, key: string): Result<Json> {
    if Truthy(Get(card, key)) then
      var n :- PyInt(card[key]);
      Success(JInt(n))
    else
      Success(JNull)
  }

  predicate ExpiryConvertible(card: Object, key: string) {
    !Truthy(Get(card, key)) || PyInt(card[key]).Success?
  }

  const RawCardKeys: set<string> :=
    {"holder_name", "number", "cvv", "expiration_month", "expiration_year", "capture"}

  /** The `card` object of the body: a token and capture flag when the caller
      supplies a token, the raw card details otherwise. */
  function CardBody(card: Object): (r: Result<Object>)
    ensures Truthy(Get(card, "token")) ==>
      r.Success? && r.value.Keys == {"token", "capture"} && r.value["token"] == card["token"]
    ensures !Truthy(Get(card, "token")) ==>
      (r.Success? <==> GetOr(card, "number", JStr("")).JStr?
                       && ExpiryConvertible(card, "expiration_month")
                       && ExpiryConvertible(card, "expiration_year"))
    ensures r.Success? && !Truthy(Get(card, "token")) ==>
      && r.value.Keys == RawCardKeys
      && r.value["number"] == JStr(SanitizeCardNumber(GetOr(card, "number", JStr("")).s))
      && r.value["cvv"] == GetOr(card, "cvv", JStr(""))
      && r.value["holder_name"] == GetOr(card, "holder_name", JStr(""))
      && (r.value["expiration_month"] == JNull <==> !Truthy(Get(card, "expiration_month")))
      && (r.value["expiration_month"] != JNull ==>
            && "expiration_month" in card && PyInt(card["expiration_month"]).Success?
            && r.value["expiration_month"] == JInt(PyInt(card["expiration_month"]).value))
      && (r.value["expiration_year"] == JNull <==> !Truthy(Get(card, "expiration_year")))
      && (r.value["expiration_year"] != JNull ==>
            && "expiration_year" in card && PyInt(card["expiration_year"]).Success?
            && r.value["expiration_year"] == JInt(PyInt(card["expiration_year"]).value))
    ensures r.Success? ==>
      r.value["capture"] == JBool("capture" !in card || card["capture"] == JStr("true") || card["capture"] == JBool(true))
  {
    var capture := JBool(Capture(GetOr(card, "capture", JStr("true"))));
    if Truthy(Get(card, "token")) then
      Success(map["token" := card["token"], "capture" := capture])
    else
      var number := GetOr(card, "number", JStr(""));
      if !number.JStr? then
        Failure("AttributeError: card number has no replace()")
      else
        var month :- Expiry(card, "expiration_month");
        var year :- Expiry(card, "expiration_year");
        Success(map[
          "holder_name" := GetOr(card, "holder_name", JStr("")),
          "number" := JStr(SanitizeCardNumber(number.s)),
          "cvv" := GetOr(card, "cvv", JStr("")),
          "expiration_month" := month,
          "expiration_year" := year,
          "capture" := capture
        ])
  }

  // ---------------------------------------------------------------------
  // The payment body and its endpoint
  // ---------------------------------------------------------------------

  /** The payment method, "IO" (instant) when the caller gives none. */
  function PaymentMethod(pd: Object): Json {
    GetOr(pd, "payment_method_id", JStr("IO"))
  }

  /** Whether the body gets a card object: a card payment with a card given. */
  predicate CardPayment(pd: Object) {
    PaymentMethod(pd) == JStr("CARD") && Truthy(Get(pd, "card"))
  }

  /** The entries of the payment body copied from the caller's data. */
  const PaymentRules: seq<FieldRule> := [
    FieldRule("amount", "amount", JNull),
    FieldRule("currency", "currency", JStr("ARS")),
    FieldRule("country", "country", JStr("AR")),
    FieldRule("payment_method_id", "payment_method_id", JStr("IO")),
    FieldRule("external_reference", "order_id", Empty),
    FieldRule("remitter_user_id", "remitter_user_id", JNull),
    FieldRule("beneficiary_user_id", "beneficiary_user_id", JNull),
    FieldRule("subpurpose", "subpurpose", JStr("EPREFA")),
    FieldRule("source_of_funds", "source_of_funds", JStr("SAVINGS"))
  ]

  /** The keys written besides the copied entries, always or conditionally. */
  const FixedKeys: set<string> := {"payment_method_flow", "payer", "signature"}
  const OptionalKeys: set<string> := {"notification_url", "card", "description"}

  lemma PaymentRulesWellFormed()
    ensures DistinctKeys(PaymentRules)
    ensures forall i :: 0 <= i < |PaymentRules| ==> PaymentRules[i].key !in FixedKeys + OptionalKeys
  {
  }

  /** No copied entry uses a key written besides the copied entries. */
  lemma PaymentKeysDisjoint()
    ensures KeysOf(PaymentRules) !! FixedKeys + OptionalKeys
  {
    PaymentRulesWellFormed();
    KeysOfExcludes(PaymentRules, FixedKeys + OptionalKeys);
  }

  /** The payer object: name and document always, email only when given. */
  function Payer(pd: Object): (payer: Object)
    ensures payer.Keys <= {"name", "document", "email"}
    ensures "name" in payer && "document" in payer
    ensures "email" in payer <==> Truthy(GetOr(pd, "payer_email", Empty))
    ensures payer["name"] == GetOr(pd, "payer_name", Empty)
    ensures payer["document"] == GetOr(pd, "payer_document", Empty)
    ensures "email" in payer ==> "payer_email" in pd && payer["email"] == pd["payer_email"]
  {
    PutIfTruthy(
      map["name" := GetOr(pd, "payer_name", Empty), "document" := GetOr(pd, "payer_document", Empty)],
      "email", GetOr(pd, "payer_email", Empty))
  }

  /** The entries every payment body carries: the copied ones, the flow
      and the payer. */
  function CoreFields(pd: Object): (core: Object)
    ensures CarriesForm(core, pd, PaymentRules)
    ensures "payment_method_flow" in core && core["payment_method_flow"] == JStr("DIRECT")
    ensures "payer" in core && core["payer"] == JObj(Payer(pd))
    ensures core.Keys == KeysOf(PaymentRules) + {"payment_method_flow", "payer"}
    ensures "notification_url" !in core && "card" !in core && "description" !in core
    ensures "signature" !in core
  {
    PaymentKeysDisjoint();
    var extra := map["payment_method_flow" := JStr("DIRECT"), "payer" := JObj(Payer(pd))];
    assert CarriesForm(Copy(pd, PaymentRules) + extra, pd, PaymentRules) by {
      PaymentRulesWellFormed();
      CopyThenUpdate(pd, PaymentRules, extra);
    }
    Copy(pd, PaymentRules) + extra
  }

  /** The card object for a card payment, none otherwise; fails when the
      card cannot be read as documented. */
  function CardPart(pd: Object): (r: Result<Option<Object>>)
    ensures !CardPayment(pd) ==> r == Success(None)
    ensures CardPayment(pd) ==>
      (r.Success? <==> pd["card"].JObj? && CardBody(pd["card"].fields).Success?)
    ensures CardPayment(pd) && r.Success? ==> r.value == Some(CardBody(pd["card"].fields).value)
  {
    if CardPayment(pd) then
      var card :- AsObject(pd["card"], "card");
      var cardBody :- CardBody(card);
      Success(Some(cardBody))
    else
      Success(None)
  }

  /** The conditional entries: the notification URL and the description when
      the caller gives them a truthy value, and the card object when there is
      one. */
  function OptionalPart(pd: Object, card: Option<Object>): (m: Object)
    ensures m.Keys <= OptionalKeys
    ensures "notification_url" in m <==> Truthy(Get(pd, "notification_url"))
    ensures "description" in m <==> Truthy(Get(pd, "description"))
    ensures "card" in m <==> card.Some?
    ensures "notification_url" in m ==> m["notification_url"] == pd["notification_url"]
    ensures "description" in m ==> m["description"] == pd["description"]
    ensures "card" in m ==> m["card"] == JObj(card.value)
  {
    var m := PutIfTruthy(map[], "notification_url", Get(pd, "notification_url"));
    var m := if card.Some? then m["card" := JObj(card.value)] else m;
    PutIfTruthy(m, "description", Get(pd, "description"))
  }

  /** The payment body. It fails only on the raw-card path, when the card is
      not an object, its number is not a string, or an expiry field is not an
      integer literal. The conditional entries and the signature flag use keys
      that no other entry uses, so the body is the union of its parts. */
  function PaymentBody(pd: Object): (r: Result<Object>)
    ensures !CardPayment(pd) ==> r.Success?
    ensures CardPayment(pd) ==>
      (r.Success? <==> pd["card"].JObj? && CardBody(pd["card"].fields).Success?)
    ensures r.Success? ==> r.value.Keys <= KeysOf(PaymentRules) + FixedKeys + OptionalKeys
    ensures r.Success? ==> FixedKeys <= r.value.Keys
    ensures r.Success? ==> r.value["payment_method_flow"] == JStr("DIRECT")
    ensures r.Success? ==> r.value["payer"] == JObj(Payer(pd))
    ensures r.Success? ==> r.value["signature"] == JBool(true)
    ensures r.Success? ==> ("notification_url" in r.value <==> Truthy(Get(pd, "notification_url")))
    ensures r.Success? ==> ("description" in r.value <==> Truthy(Get(pd, "description")))
    ensures r.Success? ==> ("card" in r.value <==> CardPayment(pd))
    ensures r.Success? && "notification_url" in r.value ==> r.value["notification_url"] == pd["notification_url"]
    ensures r.Success? && "description" in r.value ==> r.value["description"] == pd["description"]
    ensures r.Success? && "card" in r.value ==> r.value["card"] == JObj(CardBody(pd["card"].fields).value)
  {
    var card :- CardPart(pd);
    var core := CoreFields(pd);
    var optional := OptionalPart(pd, card);
    Success(core + optional["signature" := JBool(true)])
  }

  /** Every copied entry of a composed body holds the caller's value, or the
      documented default when the caller gives none. */
  lemma PaymentBodyCarriesForm(pd: Object)
    requires PaymentBody(pd).Success?
    ensures CarriesForm(PaymentBody(pd).value, pd, PaymentRules)
  {
    var card := CardPart(pd).value;
    var extra := OptionalPart(pd, card)["signature" := JBool(true)];
    PaymentKeysDisjoint();
    CarriesFormAfterUnion(CoreFields(pd), extra, FixedKeys + OptionalKeys, pd, PaymentRules);
  }

  /** Direct card details go to the secure endpoint: a card payment whose card
      has a number and neither a token nor a stored-card id. */
  predicate UsesSecureEndpoint(pd: Object) {
    && CardPayment(pd)
    && pd["card"].JObj?
    && Truthy(Get(pd["card"].fields, "number"))
    && !Truthy(Get(pd["card"].fields, "token"))
    && !Truthy(Get(pd["card"].fields, "card_id"))
  }

  datatype PaymentRequest = PaymentRequest(body: Object, url: string)

  /** The two payment endpoints of a host are different URLs. */
  lemma EndpointsDiffer(base: string)
    ensures base + "/secure_payments" != base + "/payments"
  {
    assert (base + "/secure_payments")[|base| + 1] == 's';
    assert (base + "/payments")[|base| + 1] == 'p';
  }

  /** The composed payment request: its body and the endpoint it is posted to. */
  function ComposePayment(useSandbox: bool, pd: Object): (r: Result<PaymentRequest>)
    ensures r.Success? <==> PaymentBody(pd).Success?
    ensures r.Success? ==> r.value.body == PaymentBody(pd).value
    ensures r.Success? ==>
      (r.value.url == BaseUrl(useSandbox) + "/secure_payments" <==> UsesSecureEndpoint(pd))
    ensures r.Success? ==>
      (r.value.url == BaseUrl(useSandbox) + "/payments" <==> !UsesSecureEndpoint(pd))
  {
    var body :- PaymentBody(pd);
    var base := BaseUrl(useSandbox);
    EndpointsDiffer(base);
    Success(PaymentRequest(body, if UsesSecureEndpoint(pd) then base + "/secure_payments" else base + "/payments"))
  }

  /** A card without a token reads as the raw-card object: the six raw
      fields, with the number sanitised and no place for a stored-card id. */
  lemma RawCardShape(card: Object)
    requires !Truthy(Get(card, "token")) && CardBody(card).Success?
    ensures var c := CardBody(card).value;
      && c.Keys == RawCardKeys
      && "card_id" !in c && "token" !in c
      && c["number"].JStr?
      && ' ' !in c["number"].s && '-' !in c["number"].s
  {
  }

  /** The card object a successful composition sends for a card payment. */
  lemma SentCard(useSandbox: bool, pd: Object)
    requires ComposePayment(useSandbox, pd).Success? && CardPayment(pd)
    ensures pd["card"].JObj? && CardBody(pd["card"].fields).Success?
    ensures var body := ComposePayment(useSandbox, pd).value.body;
      "card" in body && body["card"] == JObj(CardBody(pd["card"].fields).value)
  {
  }

  /** The secure endpoint only ever receives raw card details, already
      sanitised, and a token is only ever sent to the standard endpoint. */
  lemma RoutingMatchesCardBody(useSandbox: bool, pd: Object)
    requires ComposePayment(useSandbox, pd).Success?
    ensures var req := ComposePayment(useSandbox, pd).value;
      && (req.url == BaseUrl(useSandbox) + "/secure_payments" ==>
            && "card" in req.body && req.body["card"].JObj?
            && req.body["card"].fields.Keys == RawCardKeys
            && ' ' !in req.body["card"].fields["number"].s
            && '-' !in req.body["card"].fields["number"].s)
      && ("card" in req.body && "token" in req.body["card"].fields ==>
            req.url == BaseUrl(useSandbox) + "/payments")
  {
    var req := ComposePayment(useSandbox, pd).value;
    if "card" in req.body {
      SentCard(useSandbox, pd);
      var card := pd["card"].fields;
      if !Truthy(Get(card, "token")) {
        RawCardShape(card);
      }
    }
  }

  /** A card that names a stored card by `card_id` (and has no token) is posted
      to the standard endpoint, yet with the raw-card object, which never
      carries the id: the body has no place for `card_id`. */
  lemma StoredCardIdNotForwarded(useSandbox: bool, pd: Object)
    requires ComposePayment(useSandbox, pd).Success?
    requires CardPayment(pd) && pd["card"].JObj?
    requires Truthy(Get(pd["card"].fields, "card_id")) && !Truthy(Get(pd["card"].fields, "token"))
    ensures var req := ComposePayment(useSandbox, pd).value;
      && req.url == BaseUrl(useSandbox) + "/payments"
      && "card" in req.body && req.body["card"].JObj?
      && req.body["card"].fields.Keys == RawCardKeys
      && "card_id" !in req.body["card"].fields
  {
    SentCard(useSandbox, pd);
    RawCardShape(pd["card"].fields);
  }
}
