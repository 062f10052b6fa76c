/** `onTick` as written in the Character agent and in the older Template
    build: after the guarded tilt reaction it calls itself with the same
    time, unconditionally, before it records the time. The JavaScript call
    stack is finite, so the model counts the frames still available. */
module TickRecursion {
  import opened Behaviour

  /** How one host call of `onTick` ends: it returns having set
      `currentTime`, or the call stack runs out (a `RangeError` thrown to the
      host); `reactions` counts the tilt reactions run before that. */
  datatype TickRun = Returned(currentTime: int, reactions: nat) | StackExhausted(reactions: nat)

  /** The guard of `onTick`: the character is not being dragged and the
      screen is on. `Agent.AliveClass.OnTick` reacts under the same test. */
  predicate TickReacts(host: Host)
  {
    !host.dragged && !host.screenOff
  }

  /** One activation of the as-written `onTick` with `frames` stack frames
      left. Every nested activation evaluates the guard on the same host
      state, since nothing changes it during the call. */
  function TickAsWritten(frames: nat, host: Host, time: int): TickRun
    decreases frames
  {
    if frames == 0 then StackExhausted(0)
    else
      var here := if TickReacts(host) then 1 else 0;
      match TickAsWritten(frames - 1, host, time)
      case StackExhausted(n) => StackExhausted(n + here)
      case Returned(_, n) => Returned(time, n + here)
  }

  /** However deep the stack, the call never returns: `currentTime = time`
      is never reached, and the reaction is repeated once per frame before
      the stack gives out. */
  lemma {:induction false} TickAsWrittenNeverReturns(frames: nat, host: Host, time: int)
    ensures TickAsWritten(frames, host, time).StackExhausted?
    ensures TickAsWritten(frames, host, time).reactions == if TickReacts(host) then frames else 0
    decreases frames
  {
    if frames > 0 {
      TickAsWrittenNeverReturns(frames - 1, host, time);
    }
  }
}
