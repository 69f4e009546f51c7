/**
  Payment-method nonces returned by the Braintree SDK, and their
  normalisation into the string-keyed result map handed to JavaScript
  (`getPaymentUINonceResult`).
 */
module Nonces {
  import opened Wrappers
  import opened Values

  /** The 3-D Secure outcome attached to a card nonce. */
  datatype ThreeDSecureInfo = ThreeDSecureInfo(liabilityShifted: bool, liabilityShiftPossible: bool)

  /**
    The concrete class of a nonce. The SDK's class hierarchy is open; every
    class other than the three inspected by the plugin is `OtherNonce`.
   */
  datatype NonceKind =
    | CardNonce(lastTwo: string, cardType: string, threeDSecure: Option<ThreeDSecureInfo>)
    | PayPalAccountNonce(email: Option<string>, firstName: Option<string>, lastName: Option<string>,
                         phone: Option<string>, clientMetadataId: Option<string>, payerId: Option<string>)
    | VenmoAccountNonce(username: string)
    | OtherNonce

  /** The fields common to every `PaymentMethodNonce`, plus its concrete kind. */
  datatype PaymentMethodNonce = PaymentMethodNonce(nonce: string, typeLabel: string, description: string, kind: NonceKind)

  const CommonKeys: set<string> := {"nonce", "type", "localizedDescription"}

  const PayPalKeys: set<string> :=
    {"email", "firstName", "lastName", "phone", "clientMetadataId", "payerId", "payPalAccount"}

  /** The keys a nonce of the given kind adds to the common ones. */
  function KindKeys(k: NonceKind): set<string>
  {
    match k
    case CardNonce(_, _, tds) => if tds.Some? then {"card", "threeDSecureCard"} else {"card"}
    case PayPalAccountNonce(_, _, _, _, _, _) => PayPalKeys
    case VenmoAccountNonce(_) => {"venmoAccount"}
    case OtherNonce => {}
  }

  function CardMap(lastTwo: string, cardType: string): map<string, Value>
  {
    map["lastTwo" := Str(lastTwo), "network" := Str(cardType)]
  }

  function ThreeDSecureMap(info: ThreeDSecureInfo): map<string, Value>
  {
    map["liabilityShifted" := Bool(info.liabilityShifted),
        "liabilityShiftPossible" := Bool(info.liabilityShiftPossible)]
  }

  /** Reads a string stored under `key`, if there is one. */
  function GetStr(m: map<string, Value>, key: string): Option<string>
  {
    if key in m && m[key].Str? then Some(m[key].s) else None
  }

  /** Reads a nullable string stored under `key`, if there is one. */
  function GetStrOrNull(m: map<string, Value>, key: string): Option<Option<string>>
  {
    if key in m then AsStrOrNull(m[key]) else None
  }

  /** Reads a boolean stored under `key`, if there is one. */
  function GetBool(m: map<string, Value>, key: string): Option<bool>
  {
    if key in m && m[key].Bool? then Some(m[key].b) else None
  }

  /** Reads a nested map stored under `key`, if there is one. */
  function GetObj(m: map<string, Value>, key: string): Option<map<string, Value>>
  {
    if key in m && m[key].Obj? then Some(m[key].fields) else None
  }

  function ParseThreeDSecure(m: map<string, Value>): Option<Option<ThreeDSecureInfo>>
  {
    match GetObj(m, "threeDSecureCard")
    case None => if "threeDSecureCard" in m then None else Some(None)
    case Some(t) =>
      (match (GetBool(t, "liabilityShifted"), GetBool(t, "liabilityShiftPossible"))
       case (Some(shifted), Some(possible)) => Some(Some(ThreeDSecureInfo(shifted, possible)))
       case _ => None)
  }

  function ParseKind(m: map<string, Value>): Option<NonceKind>
  {
    if "card" in m then
      match (GetObj(m, "card"), ParseThreeDSecure(m))
      case (Some(c), Some(tds)) =>
        (match (GetStr(c, "lastTwo"), GetStr(c, "network"))
         case (Some(lastTwo), Some(network)) => Some(CardNonce(lastTwo, network, tds))
         case _ => None)
      case _ => None
    else if "payPalAccount" in m then
      match (GetStrOrNull(m, "email"), GetStrOrNull(m, "firstName"), GetStrOrNull(m, "lastName"),
             GetStrOrNull(m, "phone"), GetStrOrNull(m, "clientMetadataId"), GetStrOrNull(m, "payerId"))
      case (Some(email), Some(first), Some(last), Some(phone), Some(meta), Some(payer)) =>
        Some(PayPalAccountNonce(email, first, last, phone, meta, payer))
      case _ => None
    else if "venmoAccount" in m then
      match GetObj(m, "venmoAccount")
      case Some(v) => (match GetStr(v, "username") case Some(u) => Some(VenmoAccountNonce(u)) case None => None)
      case None => None
    else Some(OtherNonce)
  }

  /**
    What a JavaScript caller can read back from a result map: the nonce it
    describes, or None when the map is not shaped like a nonce result.
   */
  function ParseNonceResult(m: map<string, Value>): Option<PaymentMethodNonce>
  {
    match (GetStr(m, "nonce"), GetStr(m, "type"), GetStr(m, "localizedDescription"), ParseKind(m))
    case (Some(nonce), Some(typeLabel), Some(description), Some(kind)) =>
      Some(PaymentMethodNonce(nonce, typeLabel, description, kind))
    case _ => None
  }

  /**
    The result map for a nonce. As in the Java, the map is built by a
    sequence of independent type tests: the card test and the 3-D Secure
    test are two separate passes, the PayPal fields are written at the top
    level next to an empty `payPalAccount` map, and any other kind of nonce
    keeps only the common fields.
   */
  function NonceResult(n: PaymentMethodNonce): (r: map<string, Value>)
    ensures r.Keys == CommonKeys + KindKeys(n.kind)
    ensures r["nonce"] == Str(n.nonce) && r["type"] == Str(n.typeLabel)
            && r["localizedDescription"] == Str(n.description)
    ensures n.kind.CardNonce? ==>
              && r["card"] == Obj(CardMap(n.kind.lastTwo, n.kind.cardType))
              && ("threeDSecureCard" in r <==> n.kind.threeDSecure.Some?)
              && (n.kind.threeDSecure.Some? ==> r["threeDSecureCard"] == Obj(ThreeDSecureMap(n.kind.threeDSecure.value)))
    ensures n.kind.PayPalAccountNonce? ==>
              && r["email"] == StrOrNull(n.kind.email)
              && r["firstName"] == StrOrNull(n.kind.firstName)
              && r["lastName"] == StrOrNull(n.kind.lastName)
              && r["phone"] == StrOrNull(n.kind.phone)
              && r["clientMetadataId"] == StrOrNull(n.kind.clientMetadataId)
              && r["payerId"] == StrOrNull(n.kind.payerId)
              && r["payPalAccount"] == Obj(map[])
    ensures n.kind.VenmoAccountNonce? ==> r["venmoAccount"] == Obj(map["username" := Str(n.kind.username)])
  {
    var common := map["nonce" := Str(n.nonce), "type" := Str(n.typeLabel), "localizedDescription" := Str(n.description)];
    var k := n.kind;
    var withCard :=
      if k.CardNonce? then common["card" := Obj(CardMap(k.lastTwo, k.cardType))] else common;
    var withPayPal :=
      if k.PayPalAccountNonce? then
        withCard["email" := StrOrNull(k.email)]
                ["firstName" := StrOrNull(k.firstName)]
                ["lastName" := StrOrNull(k.lastName)]
                ["phone" := StrOrNull(k.phone)]
                ["clientMetadataId" := StrOrNull(k.clientMetadataId)]
                ["payerId" := StrOrNull(k.payerId)]
                ["payPalAccount" := Obj(map[])]
      else withCard;
    var withThreeDSecure :=
      if k.CardNonce? && k.threeDSecure.Some? then
        withPayPal["threeDSecureCard" := Obj(ThreeDSecureMap(k.threeDSecure.value))]
      else withPayPal;
    if k.VenmoAccountNonce? then
      withThreeDSecure["venmoAccount" := Obj(map["username" := Str(k.username)])]
    else withThreeDSecure
  }

  /** The result map loses nothing: the caller recovers exactly the nonce it describes. */
  lemma ParseNonceResultRoundTrip(n: PaymentMethodNonce)
    ensures ParseNonceResult(NonceResult(n)) == Some(n)
  {
  }

  /** Distinct nonces never produce the same result map. */
  lemma NonceResultInjective(n1: PaymentMethodNonce, n2: PaymentMethodNonce)
    requires NonceResult(n1) == NonceResult(n2)
    ensures n1 == n2
  {
    ParseNonceResultRoundTrip(n1);
    ParseNonceResultRoundTrip(n2);
  }
}
