/**
  The two completion channels: the activity-result channel
  (`onActivityResult` and `handleDropInPaymentUiResult`) and the listener
  channel (`onPaymentMethodNonceCreated`). Both reply through the current
  callback slot.
 */
module Results {
  import opened Wrappers
  import opened Values
  import opened Nonces
  import opened Session

  /** The reply to a cancelled drop-in UI. */
  const CancelledMap: map<string, Value> := map["userCancelled" := Bool(true)]

  /** The request codes whose activity results are declared but not handled. */
  predicate Unhandled(requestCode: int)
  {
    requestCode == PaymentButtonRequestCode || requestCode == CustomRequestCode || requestCode == PayPalRequestCode
  }

  /** The error for an unhandled request code, naming the request. */
  function NotImplementedMessage(requestCode: int): (msg: string)
    requires Unhandled(requestCode)
  {
    var name :=
      if requestCode == PaymentButtonRequestCode then "PAYMENT_BUTTON_REQUEST"
      else if requestCode == CustomRequestCode then "CUSTOM_REQUEST"
      else "PAYPAL_REQUEST";
    "Activity result handler for " + name + " not implemented."
  }

  /**
    Resolves the slot with the drop-in UI's outcome and empties it. A cancel
    code wins over everything; otherwise a missing nonce is an error and a
    present one is normalised.
   */
  function HandleDropInResult(st: PluginState, resultCode: int, nonce: Option<PaymentMethodNonce>): (s: Step)
    ensures s.state == st.(slot := None)
    ensures st.slot.None? ==> s.out == []
    ensures st.slot.Some? ==>
              && |s.out| == 1 && s.out[0].Delivered? && s.out[0].to == st.slot.value
              && (resultCode == ResultCanceled ==> s.out[0].outcome == Success(Object(CancelledMap)))
              && (resultCode != ResultCanceled && nonce.None? ==> s.out[0].outcome == Error(NoNonceReturned))
              && (resultCode != ResultCanceled && nonce.Some? ==>
                    && s.out[0].outcome == Success(Object(NonceResult(nonce.value)))
                    && ParseNonceResult(s.out[0].outcome.payload.fields) == nonce)
  {
    match st.slot
    case None => Step(st, [])
    case Some(c) =>
      var outcome :=
        if resultCode == ResultCanceled then Success(Object(CancelledMap))
        else if nonce.None? then Error(NoNonceReturned)
        else (ParseNonceResultRoundTrip(nonce.value); Success(Object(NonceResult(nonce.value))));
      Step(st.(slot := None), [Delivered(c, outcome)])
  }

  /**
    Routes an activity result by request code. With an empty slot nothing
    happens. For the drop-in request the nonce carried by the result is
    read only when the result code is OK; the three unhandled request codes
    reply with an error and keep the slot; any other code is ignored.
   */
  function OnActivityResult(st: PluginState, requestCode: int, resultCode: int, nonce: Option<PaymentMethodNonce>): (s: Step)
    ensures st.slot.None? ==> s == Step(st, [])
    ensures st.slot.Some? && requestCode == DropInRequestCode ==>
              s == HandleDropInResult(st, resultCode, if resultCode == ResultOk then nonce else None)
    ensures st.slot.Some? && Unhandled(requestCode) ==>
              s.state == st && s.out == [Delivered(st.slot.value, Error(NotImplementedMessage(requestCode)))]
    ensures st.slot.Some? && requestCode == DropInRequestCode && resultCode != ResultOk && resultCode != ResultCanceled ==>
              s.out == [Delivered(st.slot.value, Error(NoNonceReturned))]
    ensures requestCode != DropInRequestCode && !Unhandled(requestCode) ==> s == Step(st, [])
  {
    if st.slot.None? then Step(st, [])
    else if requestCode == DropInRequestCode then
      var taken := if resultCode == ResultOk then nonce else None;
      HandleDropInResult(st, resultCode, taken)
    else if Unhandled(requestCode) then
      Step(st, [Delivered(st.slot.value, Error(NotImplementedMessage(requestCode)))])
    else Step(st, [])
  }

  /**
    The payload of `onPaymentMethodNonceCreated`, or None when building it
    throws: a PayPal nonce whose payer id, first name or last name is null.
   */
  function NonceCreatedPayload(n: PaymentMethodNonce, deviceData: string): (r: Option<map<string, Value>>)
    ensures !n.kind.PayPalAccountNonce? ==>
              r == Some(map["nonce" := Str(n.nonce), "deviceData" := Str(deviceData)])
    ensures n.kind.PayPalAccountNonce? ==>
              (r.Some? <==> n.kind.payerId.Some? && n.kind.firstName.Some? && n.kind.lastName.Some?)
    ensures r.Some? && n.kind.PayPalAccountNonce? ==>
              && r.value.Keys == {"nonce", "deviceData", "payerId", "forename", "surname"}
              && r.value["payerId"] == Str(n.kind.payerId.value)
              && r.value["forename"] == Str(n.kind.firstName.value)
              && r.value["surname"] == Str(n.kind.lastName.value)
    ensures r.Some? ==> r.value["nonce"] == Str(n.nonce) && r.value["deviceData"] == Str(deviceData)
  {
    var base := map["nonce" := Str(n.nonce), "deviceData" := Str(deviceData)];
    match n.kind
    case PayPalAccountNonce(_, first, last, _, _, payer) =>
      if payer.None? || first.None? || last.None? then None
      else Some(base["payerId" := Str(payer.value)]["forename" := Str(first.value)]["surname" := Str(last.value)])
    case _ => Some(base)
  }

  /**
    The listener channel: replies with the nonce payload through the slot
    but leaves the slot occupied. An empty slot, or a payload that throws,
    delivers nothing (the exception is caught and logged).
   */
  function OnNonceCreated(st: PluginState, n: PaymentMethodNonce, deviceData: string): (s: Step)
    ensures s.state == st
    ensures |s.out| <= 1 && OnlyTo(s.out, st.slot.GetOr(0)) && DeliveriesOnly(s.out)
    ensures |s.out| == 1 <==> st.slot.Some? && NonceCreatedPayload(n, deviceData).Some?
    ensures |s.out| == 1 ==> s.out[0].outcome == Success(Object(NonceCreatedPayload(n, deviceData).value))
  {
    match (st.slot, NonceCreatedPayload(n, deviceData))
    case (Some(c), Some(payload)) => Step(st, [Delivered(c, Success(Object(payload)))])
    case _ => Step(st, [])
  }
}
