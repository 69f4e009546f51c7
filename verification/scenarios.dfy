/**
  Concrete runs of the plugin that pin down its observable behaviour,
  including the places where it does not give a command exactly one reply.
 */
module Scenarios {
  import opened Wrappers
  import opened Values
  import opened Nonces
  import opened Session
  import opened Results
  import opened Actions
  import opened Dispatch
  import opened Traces

  function InitializeWith(token: string, cb: CallbackId): Input
  {
    Command(Some("initialize"), [Some(token)], cb, Completes)
  }

  function PresentDropIn(amount: Option<string>, description: string, cb: CallbackId): Input
  {
    Command(Some("presentDropInPaymentUI"), [amount, Some(description)], cb, Completes)
  }

  /** Runs two inputs; spelled out so each step can be reasoned about separately. */
  lemma RunTwo(st: PluginState, a: Input, b: Input)
    ensures Run(st, [a, b]).state == Apply(Apply(st, a).state, b).state
    ensures Run(st, [a, b]).out == Apply(st, a).out + Apply(Apply(st, a).state, b).out
  {
    var s1 := Apply(st, a);
    var s2 := Apply(s1.state, b);
    assert [a, b][1..] == [b];
    assert [b][1..] == [];
    assert Run(s2.state, []) == Step(s2.state, []);
    assert Run(s1.state, [b]) == Step(s2.state, s2.out + []);
    assert s2.out + [] == s2.out;
  }

  lemma RunThree(st: PluginState, a: Input, b: Input, c: Input)
    ensures var s1 := Apply(st, a); var s2 := Apply(s1.state, b); var s3 := Apply(s2.state, c);
            Run(st, [a, b, c]) == Step(s3.state, s1.out + s2.out + s3.out)
  {
    assert [a, b, c][1..] == [b, c];
    RunTwo(Apply(st, a).state, b, c);
  }

  /**
    Initialise, present the drop-in UI, and complete it with a card nonce
    without 3-D Secure: the first callback gets a bare success, the second
    the card result with no `threeDSecureCard` key, and the slot is empty.
   */
  lemma DropInCardScenario()
    ensures var card := PaymentMethodNonce("nonce-1", "Visa", "ending in 42", CardNonce("42", "Visa", None));
            var s := Run(Initial, [InitializeWith("tok_abc", 1), PresentDropIn(Some("10.00"), "Widget", 2),
                                   ActivityResult(DropInRequestCode, ResultOk, Some(card))]);
            && DeliveredTo(s.out, 1) == [Success(NoPayload)]
            && DeliveredTo(s.out, 2) == [Success(Object(NonceResult(card)))]
            && "threeDSecureCard" !in NonceResult(card)
            && NonceResult(card)["card"] == Obj(map["lastTwo" := Str("42"), "network" := Str("Visa")])
            && s.state == PluginState(Some(DropInRequest("tok_abc", Some("10.00"))), None)
  {
    var card := PaymentMethodNonce("nonce-1", "Visa", "ending in 42", CardNonce("42", "Visa", None));
    var a, b, c := InitializeWith("tok_abc", 1), PresentDropIn(Some("10.00"), "Widget", 2),
                   ActivityResult(DropInRequestCode, ResultOk, Some(card));
    RunThree(Initial, a, b, c);
    var s1 := Apply(Initial, a);
    var s2 := Apply(s1.state, b);
    var s3 := Apply(s2.state, c);
    assert s1.out == [Delivered(1, Success(NoPayload))];
    assert s2.out == [DropInLaunched(DropInRequest("tok_abc", Some("10.00")), DropInRequestCode)];
    assert s3.out == [Delivered(2, Success(Object(NonceResult(card))))];
    DeliveredToAppend(s1.out, s2.out, 1);
    DeliveredToAppend(s1.out + s2.out, s3.out, 1);
    DeliveredToAppend(s1.out, s2.out, 2);
    DeliveredToAppend(s1.out + s2.out, s3.out, 2);
  }

  /** A cancelled drop-in UI replies exactly `{userCancelled: true}` and empties the slot. */
  lemma DropInCancelScenario(token: string, amount: string)
    requires token != ""
    ensures var s := Run(Initial, [InitializeWith(token, 1), PresentDropIn(Some(amount), "Widget", 2),
                                   ActivityResult(DropInRequestCode, ResultCanceled, None)]);
            && DeliveredTo(s.out, 2) == [Success(Object(map["userCancelled" := Bool(true)]))]
            && s.state.slot.None?
  {
    var a, b, c := InitializeWith(token, 1), PresentDropIn(Some(amount), "Widget", 2),
                   ActivityResult(DropInRequestCode, ResultCanceled, None);
    RunThree(Initial, a, b, c);
    var s1 := Apply(Initial, a);
    var s2 := Apply(s1.state, b);
    var s3 := Apply(s2.state, c);
    assert s2.state.slot == Some(2);
    DeliveredToOther(s1.out, 2, 1);
    DeliveredToAppend(s1.out, s2.out, 2);
    DeliveredToAppend(s1.out + s2.out, s3.out, 2);
  }

  /**
    The listener channel does not empty the slot, so a drop-in result that
    follows still replies: the plugin sends to the same callback twice.
   */
  lemma BothChannelsAnswerOneCallback(st: PluginState, n: PaymentMethodNonce, deviceData: string)
    requires st.slot.Some? && NonceCreatedPayload(n, deviceData).Some?
    ensures var c := st.slot.value;
            var s := Run(st, [NonceCreated(n, deviceData), ActivityResult(DropInRequestCode, ResultOk, Some(n))]);
            && DeliveredTo(s.out, c) == [Success(Object(NonceCreatedPayload(n, deviceData).value)),
                                        Success(Object(NonceResult(n)))]
            && s.state.slot.None?
  {
    var c := st.slot.value;
    var a, b := NonceCreated(n, deviceData), ActivityResult(DropInRequestCode, ResultOk, Some(n));
    RunTwo(st, a, b);
    DeliveredToAppend(Apply(st, a).out, Apply(Apply(st, a).state, b).out, c);
  }

  /**
    A second command while a drop-in UI is pending is not refused: it takes
    over the slot, the drop-in result answers the newer callback, and the
    first callback is never answered.
   */
  lemma NewCommandTakesOverSlot(st: PluginState, first: CallbackId, second: CallbackId, n: PaymentMethodNonce)
    requires st.slot == Some(first) && st.Initialized() && first != second
    ensures var s := Run(st, [PresentDropIn(Some("1.00"), "Widget", second),
                              ActivityResult(DropInRequestCode, ResultOk, Some(n))]);
            && DeliveredTo(s.out, first) == []
            && DeliveredTo(s.out, second) == [Success(Object(NonceResult(n)))]
  {
    var a, b := PresentDropIn(Some("1.00"), "Widget", second), ActivityResult(DropInRequestCode, ResultOk, Some(n));
    RunTwo(st, a, b);
    var s1 := Apply(st, a);
    assert s1.state.slot == Some(second);
    assert DeliveredTo(s1.out, second) == [];
    DeliveredToAppend(s1.out, Apply(s1.state, b).out, second);
    var ins := [a, b];
    assert forall k :: 0 <= k < |ins| ==> !FromCallback(ins[k], first);
    StaleCallbackNeverAnswered(st.(slot := Some(second)), ins, first);
    assert Run(st.(slot := Some(second)), ins).out == Run(st, ins).out by {
      RunTwo(st.(slot := Some(second)), a, b);
    }
  }

  /**
    A null amount is reported, yet the UI is still launched with the
    amount unset; the plugin then sends its result to the same callback a
    second time.
   */
  lemma NullAmountAnsweredTwice(st: PluginState, cb: CallbackId)
    requires st.Initialized()
    ensures var s := Run(st, [PresentDropIn(None, "Widget", cb), ActivityResult(DropInRequestCode, ResultCanceled, None)]);
            && DeliveredTo(s.out, cb) == [Error(AmountRequired), Success(Object(CancelledMap))]
            && s.state.dropIn == Some(st.dropIn.value.(amount := None))
            && DropInLaunched(st.dropIn.value.(amount := None), DropInRequestCode) in s.out
  {
    var a, b := PresentDropIn(None, "Widget", cb), ActivityResult(DropInRequestCode, ResultCanceled, None);
    RunTwo(st, a, b);
    var s1 := Apply(st, a);
    assert s1.out == [Delivered(cb, Error(AmountRequired)), DropInLaunched(st.dropIn.value.(amount := None), DropInRequestCode)];
    assert DeliveredTo(s1.out, cb) == [Error(AmountRequired)];
    DeliveredToAppend(s1.out, Apply(s1.state, b).out, cb);
  }

  /**
    When the SDK fragment cannot be created, `initialize` replies with the
    uncaught-exception error, yet the drop-in configuration is already in
    place: a following `presentDropInPaymentUI` launches the UI.
   */
  lemma FailedInitializeStillConfigures(token: string, message: string, cb1: CallbackId, cb2: CallbackId)
    requires token != ""
    ensures var s := Run(Initial, [Command(Some("initialize"), [Some(token)], cb1, Throws(message)),
                                   PresentDropIn(Some("5.00"), "Widget", cb2)]);
            && |s.out| == 2
            && s.out[0] == Delivered(cb1, Error(UncaughtPrefix + message))
            && s.out[1] == DropInLaunched(DropInRequest(token, Some("5.00")), DropInRequestCode)
  {
    var a, b := Command(Some("initialize"), [Some(token)], cb1, Throws(message)), PresentDropIn(Some("5.00"), "Widget", cb2);
    RunTwo(Initial, a, b);
    var s1 := Apply(Initial, a);
    assert s1.out == [Delivered(cb1, Error(UncaughtPrefix + message))];
    assert s1.state == PluginState(Some(DropInRequest(token, None)), Some(cb1));
    assert Apply(s1.state, b).out == [DropInLaunched(DropInRequest(token, Some("5.00")), DropInRequestCode)];
  }
}
