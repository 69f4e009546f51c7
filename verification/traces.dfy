/**
  Sequences of inputs to the plugin: commands from JavaScript and
  completions from either channel, applied one after another.
 */
module Traces {
  import opened Wrappers
  import opened Nonces
  import opened Session
  import opened Results
  import opened Actions
  import opened Dispatch

  /** One call into the plugin. */
  datatype Input =
    | Command(action: Option<string>, args: Args, callback: CallbackId, sdk: SdkCall)
    | ActivityResult(requestCode: int, resultCode: int, nonce: Option<PaymentMethodNonce>)
    | NonceCreated(created: PaymentMethodNonce, deviceData: string)

  function Apply(st: PluginState, i: Input): Step
  {
    match i
    case Command(action, args, cb, sdk) =>
      var r := Execute(st, action, args, cb, sdk);
      Step(r.state, r.out)
    case ActivityResult(requestCode, resultCode, nonce) => OnActivityResult(st, requestCode, resultCode, nonce)
    case NonceCreated(n, deviceData) => OnNonceCreated(st, n, deviceData)
  }

  /** The inputs applied in order; the effects are concatenated. */
  function Run(st: PluginState, ins: seq<Input>): Step
    decreases |ins|
  {
    if ins == [] then Step(st, [])
    else
      var first := Apply(st, ins[0]);
      var rest := Run(first.state, ins[1..]);
      Step(rest.state, first.out + rest.out)
  }

  /** Whether input `i` is a command carrying callback `c`. */
  predicate FromCallback(i: Input, c: CallbackId)
  {
    i.Command? && i.callback == c
  }

  /**
    One input replies only to the callback already in the slot or to the
    command's own callback, and puts no other callback into the slot.
   */
  lemma ApplyTargets(st: PluginState, i: Input, c: CallbackId)
    requires st.slot != Some(c) && !FromCallback(i, c)
    ensures DeliveredTo(Apply(st, i).out, c) == []
    ensures Apply(st, i).state.slot != Some(c)
  {
  }

  /**
    A callback that is not in the slot, and that no later command carries,
    never receives a reply. In particular a pending callback overwritten by
    a newer command is never answered.
   */
  lemma {:induction false} StaleCallbackNeverAnswered(st: PluginState, ins: seq<Input>, c: CallbackId)
    requires st.slot != Some(c)
    requires forall k :: 0 <= k < |ins| ==> !FromCallback(ins[k], c)
    ensures DeliveredTo(Run(st, ins).out, c) == []
    decreases |ins|
  {
    if ins != [] {
      var first := Apply(st, ins[0]);
      ApplyTargets(st, ins[0], c);
      assert forall k :: 0 <= k < |ins[1..]| ==> !FromCallback(ins[1..][k], c) by {
        forall k | 0 <= k < |ins[1..]| ensures !FromCallback(ins[1..][k], c) {
          assert ins[1..][k] == ins[k + 1];
        }
      }
      StaleCallbackNeverAnswered(first.state, ins[1..], c);
      DeliveredToAppend(first.out, Run(first.state, ins[1..]).out, c);
    }
  }

  /** Once initialised, the plugin stays initialised whatever follows. */
  lemma {:induction false} InitializationIsPermanent(st: PluginState, ins: seq<Input>)
    requires st.Initialized()
    ensures Run(st, ins).state.Initialized()
    decreases |ins|
  {
    if ins != [] {
      InitializationIsPermanent(Apply(st, ins[0]).state, ins[1..]);
    }
  }

  /** Whether input `i` is a completion from either channel. */
  predicate IsCompletion(i: Input)
  {
    !i.Command?
  }

  /**
    With the slot empty, completions from either channel change nothing and
    reply to no one: a resolved drop-in command is not answered twice.
   */
  lemma {:induction false} EmptySlotIgnoresCompletions(st: PluginState, ins: seq<Input>)
    requires st.slot.None?
    requires forall k :: 0 <= k < |ins| ==> IsCompletion(ins[k])
    ensures Run(st, ins) == Step(st, [])
    decreases |ins|
  {
    if ins != [] {
      assert IsCompletion(ins[0]);
      assert Apply(st, ins[0]) == Step(st, []);
      assert forall k :: 0 <= k < |ins[1..]| ==> IsCompletion(ins[1..][k]) by {
        forall k | 0 <= k < |ins[1..]| ensures IsCompletion(ins[1..][k]) {
          assert ins[1..][k] == ins[k + 1];
        }
      }
      EmptySlotIgnoresCompletions(st, ins[1..]);
    }
  }

  /** After the drop-in result resolves the slot, no later completion replies again. */
  lemma DropInResolvedOnce(st: PluginState, resultCode: int, nonce: Option<PaymentMethodNonce>, later: seq<Input>)
    requires st.slot.Some?
    requires forall k :: 0 <= k < |later| ==> IsCompletion(later[k])
    ensures var s := Run(st, [ActivityResult(DropInRequestCode, resultCode, nonce)] + later);
            DeliveredTo(s.out, st.slot.value) == DeliveredTo(OnActivityResult(st, DropInRequestCode, resultCode, nonce).out, st.slot.value)
            && |DeliveredTo(s.out, st.slot.value)| == 1
            && s.state.slot.None?
            && s.out == OnActivityResult(st, DropInRequestCode, resultCode, nonce).out
  {
    var ins := [ActivityResult(DropInRequestCode, resultCode, nonce)] + later;
    var first := OnActivityResult(st, DropInRequestCode, resultCode, nonce);
    assert ins[0] == ActivityResult(DropInRequestCode, resultCode, nonce);
    assert ins[1..] == later;
    EmptySlotIgnoresCompletions(first.state, later);
    assert first.out + [] == first.out;
  }
}
