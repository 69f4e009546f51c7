# Braintree Cordova plugin (Android): callback slot and nonce results

This project models the Android side of a Cordova plugin that bridges JavaScript to the Braintree
payment SDK (`src/android/BraintreePlugin.java`). It covers three parts of that class:

- **Nonce normalisation** (`getPaymentUINonceResult`). A payment-method nonce is a closed datatype:
  a card (with optional 3-D Secure info), a PayPal account, a Venmo account, or any other nonce. It
  maps to the string-keyed result map handed to JavaScript (`Nonces.NonceResult`). The map keeps the
  source's quirks:
  - the card map's key is `lastTwo`;
  - `threeDSecureCard` is a sibling of `card`, not nested inside it;
  - the PayPal fields are flat top-level keys next to an empty `payPalAccount` map;
  - a null PayPal field is kept as a `Null` value, because `HashMap.put` keeps null values.

  `ParseNonceResult` reads a map back, and the round-trip lemma shows that the map loses nothing.
- **The single callback slot** (`_callbackContext`). The plugin state is the drop-in configuration
  (non-null once `initialize` has accepted a token) plus one optional callback. Each entry point is a pure function
  from a state to a new state and a sequence of effects. An effect is a reply delivered to a callback,
  a drop-in UI launch, or a PayPal flow start. The entry points are `Execute`, `OnActivityResult`
  (through `HandleDropInResult`) and `OnNonceCreated`.
- **Command dispatch** (`execute`). A null action is refused. Any other action overwrites the slot
  first. An unknown action returns false. An exception from a known action becomes one
  `"BraintreePlugin uncaught exception: " + message` error, and the command still counts as handled.

`Traces.Run` applies a sequence of inputs: commands, activity results and nonce-created events. Its
lemmas state what holds across calls:
- a callback that has been overwritten is never answered;
- once the slot is empty, completions do nothing;
- initialisation is permanent.

The concrete runs in `Scenarios` show the plugin's real reply discipline. There is no "already
pending" refusal, and no "first resolver wins" rule. Both completion channels can answer the same
callback. A `presentDropInPaymentUI` with a null amount reports an error but still launches the UI.

Three behaviours of the code are easy to miss:
- `execute` never refuses a second asynchronous command; it overwrites the slot;
- the nonce-created channel does not clear the slot;
- `initialize` assigns the drop-in configuration before the SDK call that can throw.

Constants from outside the file:
- `RESULT_OK` is -1 and `RESULT_CANCELED` is 0; these are the values of `android.app.Activity`.
- An argument read with `getString` is a string or null, as the plugin's own null checks assume. Reading past the end of the argument array throws.
- The SDK calls that may throw are an input, `SdkCall`.

## Model

| member | source | states |
|---|---|---|
| Nonces.NonceResult | src/android/BraintreePlugin.java:238-299 | The key set is exactly the common keys plus the keys of the nonce's kind. The common values come from the nonce. A card gets `card` = {`lastTwo`, `network`}. It gets `threeDSecureCard` if and only if it has 3-D Secure info. A PayPal nonce gets the six flat fields (null when absent) and an empty `payPalAccount`. A Venmo nonce gets `venmoAccount` = {`username`}. |
| Nonces.ParseNonceResultRoundTrip | src/android/BraintreePlugin.java:238-299 | Reading the result map back yields exactly the nonce it was built from, for every kind of nonce. |
| Nonces.NonceResultInjective | src/android/BraintreePlugin.java:238-299 | Two nonces with the same result map are the same nonce. |
| Results.HandleDropInResult | src/android/BraintreePlugin.java:206-229 | With an empty slot, nothing happens. Otherwise exactly one reply goes to the slot's callback, and the slot is emptied. A cancel code replies `{userCancelled: true}`. Any other code without a nonce replies the "no PaymentMethodNonce" error. Otherwise the reply is a success carrying exactly the normalised map of the nonce, which reads back as that nonce. |
| Results.OnActivityResult | src/android/BraintreePlugin.java:168-198 | With an empty slot, nothing happens. For the drop-in request, the nonce is used only when the result code is OK, so any code that is neither OK nor cancel replies the "no PaymentMethodNonce" error. The payment-button, custom and PayPal request codes reply with a "not implemented" error that names the request, and keep the slot. Any other request code has no effect. |
| Results.NonceCreatedPayload | src/android/BraintreePlugin.java:304-314 | The payload holds `nonce` and `deviceData`. A PayPal nonce also gets `payerId`, `forename` and `surname`. Building the payload fails exactly when one of those three is null. |
| Results.OnNonceCreated | src/android/BraintreePlugin.java:302-320 | The slot is never cleared. At most one reply is sent, to the slot's callback. It is sent exactly when the slot is occupied and the payload can be built. |
| Actions.Initialize | src/android/BraintreePlugin.java:78-105 | If there is not exactly one argument, or the token is null or empty, the reply is "A token is required." and the state is unchanged. A valid token installs a fresh configuration with no amount. The reply is then success, or nothing when the SDK throws (the configuration is installed anyway). |
| Actions.PresentDropInPaymentUI | src/android/BraintreePlugin.java:112-154 | Before initialisation, the reply is the "must first be initialized" error. With no arguments, the reply is "amount is required.". A null amount is reported, but the action does not stop. A single argument throws before the amount is recorded. Once initialised, with at least one argument, the effects are exactly the optional null-amount error followed by, when there are at least two arguments, one launch with the amount recorded. |
| Actions.PayPalProcess | src/android/BraintreePlugin.java:156-160 | With fewer than two arguments, it throws. Otherwise it starts a one-time payment for the given amount and currency, or throws what the SDK throws. It never replies and never changes the state. |
| Actions.PayPalProcessVaulted | src/android/BraintreePlugin.java:161-163 | It starts the PayPal vault flow, or throws what the SDK throws. It never replies and never changes the state. |
| Dispatch.ParseCommand | src/android/BraintreePlugin.java:52-67 | An action is recognised if and only if it is one of the four action names, and each name selects the command of that name (`ActionName` maps the command back to it). |
| Dispatch.Execute | src/android/BraintreePlugin.java:43-74 | A null action returns false and changes nothing. Any other action sets the slot to the new callback. Every reply goes to that callback. The return value is true if and only if the action is known. An unknown action does nothing else. A known action's exception appends one uncaught-exception error. Only `initialize` can change whether the plugin is initialised. |
| Traces.StaleCallbackNeverAnswered | src/android/BraintreePlugin.java:43-74 | A callback that is not in the slot, and that no later command carries, receives no reply in any run. |
| Traces.InitializationIsPermanent | src/android/BraintreePlugin.java:78-105 | Once initialised, the plugin stays initialised after any sequence of inputs. |
| Traces.EmptySlotIgnoresCompletions | src/android/BraintreePlugin.java:168-229 | With an empty slot, any sequence of completions from either channel changes nothing and replies to no one. |
| Traces.DropInResolvedOnce | src/android/BraintreePlugin.java:206-229 | After a drop-in result, later completions add no effect at all. The callback receives exactly one reply, and the slot ends empty. |
| Scenarios.DropInCardScenario | src/android/BraintreePlugin.java:247-255 | The run is initialise, then present, then a card result without 3-D Secure. The first callback gets a bare success. The second gets the card map {`lastTwo`: "42", `network`: "Visa"} and no `threeDSecureCard` key. The slot ends empty. |
| Scenarios.DropInCancelScenario | src/android/BraintreePlugin.java:212-217 | A cancelled drop-in UI replies exactly `{userCancelled: true}` and empties the slot. |
| Scenarios.BothChannelsAnswerOneCallback | src/android/BraintreePlugin.java:302-320 | For any nonce whose listener payload can be built, PayPal included, a nonce-created event followed by a drop-in result sends to the same callback twice: first the listener payload, then the normalised map. |
| Scenarios.NewCommandTakesOverSlot | src/android/BraintreePlugin.java:45-49 | A second command while a drop-in UI is pending is not refused. The drop-in result answers the newer callback, and the older one is never answered. |
| Scenarios.NullAmountAnsweredTwice | src/android/BraintreePlugin.java:128-153 | A null amount replies "amount is required.", and the UI still launches with the amount unset. The plugin then sends the later result to the same callback again. |
| Scenarios.FailedInitializeStillConfigures | src/android/BraintreePlugin.java:94-102 | When the SDK fragment cannot be created, `initialize` replies with the uncaught-exception error. A following `presentDropInPaymentUI` still launches the UI with the token. |

## Left out

- The Braintree SDK: `DropInRequest.getIntent`, `BraintreeFragment.newInstance`/`addListener`, `PayPal.requestOneTimePayment`/`authorizeAccount` and `DataCollector.collectDeviceData` are foreign calls. A call that may throw in `initialize` or a PayPal action is the `SdkCall` input. Device data is an uninterpreted string. A PayPal flow start is an effect, and its later reply arrives as a nonce-created input.
- `DropInRequest.getIntent` (line 153) and `DataCollector.collectDeviceData` (line 307) are assumed never to throw. In the Java, a throw from `getIntent` would still give the uncaught-exception error, with the amount already recorded at line 136. A throw from `collectDeviceData` is caught at line 317, and no reply is sent.
- The Android Pay cart built with the hard-coded GBP currency (lines 139-150): it is library object construction that only passes the amount and description through. The description argument is read, for the exception it can throw, but is otherwise unused.
- Cordova and Android plumbing: `startActivityForResult`, `setActivityResultCallback`, intent extras and JSON text. Replies are Dafny values. `DropInLaunched` stands for the activity launch.
- Cordova's own `CallbackContext` bookkeeping, which may drop a second result sent to an already finished callback: it is outside this file. The model records every reply the plugin sends.
- `synchronized` and thread interleaving: inputs are applied one at a time, in any order the trace gives.
- A drop-in result with `RESULT_OK` but no `DropInResult` extra in the intent makes the Java throw a null-pointer exception that nothing catches. The model takes the nonce carried by the result as an input that may be null.
- Argument coercion by `org.json`: the model follows the plugin's own null checks (lines 89 and 130) and assumes `getString` can return null. The org.json library is not part of this model; a library version that turns a JSON null into the string "null" would make those checks unreachable.
- The message text of a `JSONException` from reading past the end of the arguments is a fixed placeholder, not the exact org.json wording. An SDK exception's message is a plain string, and a null message is not modelled.
- The nonce's own string, type label and description, a card's `lastTwo` and card type, and a Venmo `username` are never null in the model; in the Java, `HashMap.put` would keep such a null (lines 242-244, 251-252, 293). In the Java, a null nonce string in `onPaymentMethodNonceCreated` would also be caught and produce no reply.
- The check for `dropInRequest == null` right after its construction (lines 96-99) can never succeed, so the model has no "failed to initialize" reply.
- `setupApplePay` (lines 107-110) is never dispatched. `src/ios/BraintreePlugin.h` declares methods only.
