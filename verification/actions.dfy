/**
  The four actions `execute` can dispatch to. Each runs with the callback
  slot already set to the calling command's callback, and either returns
  or throws an exception that `execute` turns into an error reply.
 */
module Actions {
  import opened Wrappers
  import opened Session

  /** A JSON argument array, read element by element as a string or null, as the plugin's null checks assume. */
  type Args = seq<Option<string>>

  /** The outcome of a call into the Braintree SDK that may throw. */
  datatype SdkCall = Completes | Throws(message: string)

  /** An exception escaping an action. */
  datatype Failure =
    | ArgumentMissing(index: nat)   // `JSONArray.getString` past the end of the array
    | SdkFailure(message: string)

  /** The text of `getMessage()` for a failure. */
  function FailureMessage(f: Failure): string
  {
    match f
    case ArgumentMissing(_) => "JSONArray index out of range"
    case SdkFailure(m) => m
  }

  /** The state and effects when an action returns (`thrown` is None) or throws. */
  datatype ActionStep = ActionStep(state: PluginState, out: seq<Effect>, thrown: Option<Failure>)

  /** What `getString` yields: an element, or the exception it throws. */
  datatype Fetched = Got(s: Option<string>) | Missing(failure: Failure)

  /** `args.getString(i)`: the element, or an exception past the end. */
  function GetString(args: Args, i: nat): Fetched
  {
    if i < |args| then Got(args[i]) else Missing(ArgumentMissing(i))
  }

  /** The token accepted by `initialize`: present and non-empty. */
  predicate ValidToken(t: Option<string>)
  {
    t.Some? && t.value != ""
  }

  /**
    `initialize(args)`: a single non-null, non-empty token replaces the
    drop-in configuration and replies with success. The configuration is
    replaced before the SDK fragment is created, so a throwing SDK leaves
    the plugin initialised without a reply from this action.
   */
  function Initialize(st: PluginState, args: Args, sdk: SdkCall): (a: ActionStep)
    requires st.slot.Some?
    ensures a.state.slot == st.slot && OnlyTo(a.out, st.slot.value) && DeliveriesOnly(a.out)
    ensures !(|args| == 1 && ValidToken(args[0])) ==>
              a == ActionStep(st, [Delivered(st.slot.value, Error(TokenRequired))], None)
    ensures |args| == 1 && ValidToken(args[0]) ==>
              && a.state.dropIn == Some(DropInRequest(args[0].value, None))
              && (sdk.Completes? ==> a.out == [Delivered(st.slot.value, Success(NoPayload))] && a.thrown.None?)
              && (sdk.Throws? ==> a.out == [] && a.thrown == Some(SdkFailure(sdk.message)))
  {
    var c := st.slot.value;
    if |args| != 1 then ActionStep(st, [Delivered(c, Error(TokenRequired))], None)
    else
      var token := args[0];
      if token.None? || token.value == "" then ActionStep(st, [Delivered(c, Error(TokenRequired))], None)
      else
        var configured := st.(dropIn := Some(DropInRequest(token.value, None)));
        match sdk
        case Throws(m) => ActionStep(configured, [], Some(SdkFailure(m)))
        case Completes => ActionStep(configured, [Delivered(c, Success(NoPayload))], None)
  }

  /** `out` launches the drop-in UI. */
  predicate Launches(out: seq<Effect>)
  {
    exists i :: 0 <= i < |out| && out[i].DropInLaunched?
  }

  /**
    `presentDropInPaymentUI(args)`: refuses before initialisation and
    without arguments. A null amount is reported but does not stop the
    action: the amount is still recorded and the UI still launched. The
    description is read before the amount is recorded, so a single argument
    throws and leaves the configuration as it was.
   */
  function PresentDropInPaymentUI(st: PluginState, args: Args): (a: ActionStep)
    requires st.slot.Some?
    ensures a.state.slot == st.slot && OnlyTo(a.out, st.slot.value)
    ensures Launches(a.out) <==> st.Initialized() && |args| >= 2
    ensures !st.Initialized() ==> a == ActionStep(st, [Delivered(st.slot.value, Error(NotInitialized))], None)
    ensures st.Initialized() && |args| == 0 ==> a == ActionStep(st, [Delivered(st.slot.value, Error(AmountRequired))], None)
    ensures st.Initialized() && |args| >= 1 ==>
              (DeliveredTo(a.out, st.slot.value) == if args[0].None? then [Error(AmountRequired)] else [])
    ensures st.Initialized() && |args| >= 1 ==>
              a.out == (if args[0].None? then [Delivered(st.slot.value, Error(AmountRequired))] else [])
                       + (if |args| >= 2 then [DropInLaunched(st.dropIn.value.(amount := args[0]), DropInRequestCode)] else [])
    ensures st.Initialized() && |args| == 1 ==> a.state == st && a.thrown == Some(ArgumentMissing(1))
    ensures st.Initialized() && |args| >= 2 ==>
              && a.thrown.None?
              && a.state.dropIn == Some(st.dropIn.value.(amount := args[0]))
              && a.out[|a.out| - 1] == DropInLaunched(a.state.dropIn.value, DropInRequestCode)
  {
    var c := st.slot.value;
    if st.dropIn.None? then ActionStep(st, [Delivered(c, Error(NotInitialized))], None)
    else if |args| < 1 then ActionStep(st, [Delivered(c, Error(AmountRequired))], None)
    else
      var amount := args[0];
      var reported := if amount.None? then [Delivered(c, Error(AmountRequired))] else [];
      match GetString(args, 1)
      case Missing(f) => ActionStep(st, reported, Some(f))
      case Got(_) =>
        var request := st.dropIn.value.(amount := amount);
        var out := reported + [DropInLaunched(request, DropInRequestCode)];
        assert out[|out| - 1].DropInLaunched?;
        ActionStep(st.(dropIn := Some(request)), out, None)
  }

  /** `payPalProcess(args)`: starts a one-time PayPal payment for an amount and currency. */
  function PayPalProcess(st: PluginState, args: Args, sdk: SdkCall): (a: ActionStep)
    ensures a.state == st && NoReplies(a.out) && !Launches(a.out)
    ensures |args| < 2 ==> a.out == [] && a.thrown == Some(ArgumentMissing(|args|))
    ensures |args| >= 2 && sdk.Throws? ==> a.out == [] && a.thrown == Some(SdkFailure(sdk.message))
    ensures |args| >= 2 && sdk.Completes? ==> a.out == [PayPalOneTimePayment(args[0], args[1])] && a.thrown.None?
  {
    match (GetString(args, 0), GetString(args, 1))
    case (Missing(f), _) => ActionStep(st, [], Some(f))
    case (_, Missing(f)) => ActionStep(st, [], Some(f))
    case (Got(amount), Got(currency)) =>
      match sdk
      case Throws(m) => ActionStep(st, [], Some(SdkFailure(m)))
      case Completes => ActionStep(st, [PayPalOneTimePayment(amount, currency)], None)
  }

  /** `payPalProcessVaulted()`: starts the PayPal vault (billing agreement) flow. */
  function PayPalProcessVaulted(st: PluginState, sdk: SdkCall): (a: ActionStep)
    ensures a.state == st && NoReplies(a.out) && !Launches(a.out)
    ensures sdk.Throws? ==> a.out == [] && a.thrown == Some(SdkFailure(sdk.message))
    ensures sdk.Completes? ==> a.out == [PayPalAuthorizeAccount] && a.thrown.None?
  {
    match sdk
    case Throws(m) => ActionStep(st, [], Some(SdkFailure(m)))
    case Completes => ActionStep(st, [PayPalAuthorizeAccount], None)
  }
}
