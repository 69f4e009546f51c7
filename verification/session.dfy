/**
  The plugin's state and what it sends out. The Java object keeps a
  `DropInRequest` (non-null once `initialize` has accepted a token) and one callback
  slot `_callbackContext`; every reply goes through that slot.
 */
module Session {
  import opened Wrappers
  import opened Values

  /** Request codes passed to `startActivityForResult`. */
  const DropInRequestCode: int := 100
  const PaymentButtonRequestCode: int := 200
  const CustomRequestCode: int := 300
  const PayPalRequestCode: int := 400

  /** `android.app.Activity.RESULT_OK` and `RESULT_CANCELED`. */
  const ResultOk: int := -1
  const ResultCanceled: int := 0

  const TokenRequired := "A token is required."
  const NotInitialized := "The Braintree client must first be initialized via BraintreePlugin.initialize(token)"
  const AmountRequired := "amount is required."
  const NoNonceReturned :=
    "Result was not RESULT_CANCELED, but no PaymentMethodNonce was returned from the Braintree SDK."
  const UncaughtPrefix := "BraintreePlugin uncaught exception: "

  /** A Cordova `CallbackContext`, identified by the call that created it. */
  type CallbackId = nat

  /** The payload of a successful reply: `success()` or a JSON object. */
  datatype Payload = NoPayload | Object(fields: map<string, Value>)

  /** One reply sent through a callback. */
  datatype Outcome = Success(payload: Payload) | Error(message: string)

  /** The drop-in configuration: the client token and the amount last set. */
  datatype DropInRequest = DropInRequest(clientToken: string, amount: Option<string>)

  /** What the plugin does to the outside world. */
  datatype Effect =
    | Delivered(to: CallbackId, outcome: Outcome)
    | DropInLaunched(request: DropInRequest, requestCode: int)
    | PayPalOneTimePayment(amount: Option<string>, currencyCode: Option<string>)
    | PayPalAuthorizeAccount

  /** The plugin's mutable fields `dropInRequest` and `_callbackContext`. */
  datatype PluginState = PluginState(dropIn: Option<DropInRequest>, slot: Option<CallbackId>) {
    predicate Initialized() { dropIn.Some? }
  }

  const Initial := PluginState(None, None)

  /** The state after one entry point returns, and the effects it had, in order. */
  datatype Step = Step(state: PluginState, out: seq<Effect>)

  /** The outcomes delivered to callback `c`, in order. */
  function DeliveredTo(out: seq<Effect>, c: CallbackId): (r: seq<Outcome>)
    ensures |r| <= |out|
    ensures out == [] ==> r == []
  {
    if out == [] then []
    else if out[0].Delivered? && out[0].to == c then [out[0].outcome] + DeliveredTo(out[1..], c)
    else DeliveredTo(out[1..], c)
  }

  /** Every delivery in `out` goes to callback `c`. */
  predicate OnlyTo(out: seq<Effect>, c: CallbackId)
  {
    forall i :: 0 <= i < |out| && out[i].Delivered? ==> out[i].to == c
  }

  /** `out` launches no UI and starts no PayPal flow. */
  predicate DeliveriesOnly(out: seq<Effect>)
  {
    forall i :: 0 <= i < |out| ==> out[i].Delivered?
  }

  /** `out` replies to no callback. */
  predicate NoReplies(out: seq<Effect>)
  {
    forall i :: 0 <= i < |out| ==> !out[i].Delivered?
  }

  lemma {:induction false} DeliveredToAppend(a: seq<Effect>, b: seq<Effect>, c: CallbackId)
    ensures DeliveredTo(a + b, c) == DeliveredTo(a, c) + DeliveredTo(b, c)
    decreases |a|
  {
    if a == [] {
      assert a + b == b;
    } else {
      assert (a + b)[0] == a[0];
      assert (a + b)[1..] == a[1..] + b;
      DeliveredToAppend(a[1..], b, c);
    }
  }

  /** A callback that `out` never names receives nothing from it. */
  lemma {:induction false} DeliveredToOther(out: seq<Effect>, c: CallbackId, d: CallbackId)
    requires OnlyTo(out, d) && c != d
    ensures DeliveredTo(out, c) == []
    decreases |out|
  {
    if out != [] {
      assert OnlyTo(out[1..], d) by {
        forall i | 0 <= i < |out[1..]| && out[1..][i].Delivered?
          ensures out[1..][i].to == d
        {
          assert out[1..][i] == out[i + 1];
        }
      }
      DeliveredToOther(out[1..], c, d);
    }
  }
}
