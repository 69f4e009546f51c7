/**
  `execute`: the single entry point for commands from JavaScript. It
  stores the command's callback in the slot, unconditionally, and runs the
  named action; an exception from the action becomes one error reply.
 */
module Dispatch {
  import opened Wrappers
  import opened Session
  import opened Actions

  /** The actions `execute` recognises. */
  datatype Command = InitializeCmd | PresentDropInCmd | PayPalProcessCmd | PayPalProcessVaultedCmd

  const KnownActions: set<string> := {"initialize", "presentDropInPaymentUI", "payPalProcess", "payPalProcessVaulted"}

  /** The action name that selects each command. */
  function ActionName(cmd: Command): string
  {
    match cmd
    case InitializeCmd => "initialize"
    case PresentDropInCmd => "presentDropInPaymentUI"
    case PayPalProcessCmd => "payPalProcess"
    case PayPalProcessVaultedCmd => "payPalProcessVaulted"
  }

  function ParseCommand(action: string): (r: Option<Command>)
    ensures r.Some? <==> action in KnownActions
    ensures r.Some? ==> ActionName(r.value) == action
  {
    if action == "initialize" then Some(InitializeCmd)
    else if action == "presentDropInPaymentUI" then Some(PresentDropInCmd)
    else if action == "payPalProcess" then Some(PayPalProcessCmd)
    else if action == "payPalProcessVaulted" then Some(PayPalProcessVaultedCmd)
    else None
  }

  /** Runs one action with the slot already holding the command's callback. */
  function RunAction(st: PluginState, cmd: Command, args: Args, sdk: SdkCall): ActionStep
    requires st.slot.Some?
  {
    match cmd
    case InitializeCmd => Initialize(st, args, sdk)
    case PresentDropInCmd => PresentDropInPaymentUI(st, args)
    case PayPalProcessCmd => PayPalProcess(st, args, sdk)
    case PayPalProcessVaultedCmd => PayPalProcessVaulted(st, sdk)
  }

  /** The boolean `execute` returns, the state after it, and its effects. */
  datatype Dispatched = Dispatched(handled: bool, state: PluginState, out: seq<Effect>)

  /**
    `execute(action, args, callback)`. A null action is refused before
    anything changes. Any other action first overwrites the slot with the
    new callback, with no check for a command still pending; an unknown
    action then returns false. A known action returns true, and an
    exception it throws is reported as one uncaught-exception error.
   */
  function Execute(st: PluginState, action: Option<string>, args: Args, cb: CallbackId, sdk: SdkCall): (r: Dispatched)
    ensures action.None? ==> r == Dispatched(false, st, [])
    ensures action.Some? ==>
              && r.state.slot == Some(cb)
              && OnlyTo(r.out, cb)
              && (r.handled <==> action.value in KnownActions)
              && (action.value != "initialize" ==> r.state.Initialized() == st.Initialized())
              && (st.Initialized() ==> r.state.Initialized())
    ensures action.Some? && action.value !in KnownActions ==> r == Dispatched(false, st.(slot := Some(cb)), [])
    ensures action.Some? && action.value in KnownActions ==>
              var a := RunAction(st.(slot := Some(cb)), ParseCommand(action.value).value, args, sdk);
              && r.state == a.state
              && (a.thrown.None? ==> r.out == a.out)
              && (a.thrown.Some? ==>
                    r.out == a.out + [Delivered(cb, Error(UncaughtPrefix + FailureMessage(a.thrown.value)))])
  {
    if action.None? then Dispatched(false, st, [])
    else
      var pending := st.(slot := Some(cb));
      match ParseCommand(action.value)
      case None => Dispatched(false, pending, [])
      case Some(cmd) =>
        var a := RunAction(pending, cmd, args, sdk);
        match a.thrown
        case None => Dispatched(true, a.state, a.out)
        case Some(f) =>
          var reply := Delivered(cb, Error(UncaughtPrefix + FailureMessage(f)));
          Dispatched(true, a.state, a.out + [reply])
  }
}
