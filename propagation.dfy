/** The meaning of `resolve` and `reject`: the whole synchronous, re-entrant
    cascade they set off, as functions from the heap before the call to the
    heap after it and the way the call ended. */
module Propagation {
  import opened Promises

  /** How a cascade ended. `Threw` is an exception thrown by a user handler,
      which nothing in the engine catches; `Overflow` is the call stack running
      out (the nesting depth of resolve/reject calls exceeded the fuel);
      `Dangling` is a handler script naming a promise that does not exist. */
  datatype Exit = Normal | Threw(error: Value) | Dangling | Overflow

  datatype Run = Run(heap: Heap, exit: Exit)

  /** `deferred.resolve(data)` (resolve == true) or `deferred.reject(data)` on
      the deferred owning promise `p`: overwrite value and status, with no
      check of the current status, then fire the list for that outcome as it
      stood when firing began. `fuel` bounds the nesting depth. */
  function SettleRun(h: Heap, p: PromiseId, resolve: bool, data: Value, fuel: nat): (r: Run)
    ensures Grows(h, r.heap)
    decreases fuel, 0, 0
  {
    if fuel == 0 then Run(h, Overflow)
    else if p >= |h| then Run(h, Dangling)
    else
      var cbs := if resolve then h[p].successCallbacks else h[p].failureCallbacks;
      FireAll(h[p := Settled(h[p], resolve, data)], p, cbs, 0, fuel - 1)
  }

  /** The `forEach` over a callback list: callbacks i.. of `cbs` in order, each
      given promise `p`; an exception from one stops the rest. */
  function FireAll(h: Heap, p: PromiseId, cbs: seq<Callback>, i: nat, fuel: nat): (r: Run)
    requires p < |h| && i <= |cbs|
    ensures Grows(h, r.heap)
    decreases fuel, 2, |cbs| - i
  {
    if i == |cbs| then Run(h, Normal)
    else
      var run := RunCallback(h, p, cbs[i], fuel);
      if !run.exit.Normal? then run
      else FireAll(run.heap, p, cbs, i + 1, fuel)
  }

  /** One propagation closure built by `then`, called with the promise `p` it
      is registered on. Success: without a handler the child resolves with p's
      value; with one, the handler runs and a result that is not a promise
      resolves the child, while a returned promise gets `then(adopt-resolve, adopt-reject)` and the
      child keeps waiting. Failure: the handler (if any) runs, its result is
      discarded, and the child is rejected with p's value as it is then. */
  function RunCallback(h: Heap, p: PromiseId, cb: Callback, fuel: nat): (r: Run)
    requires p < |h|
    ensures Grows(h, r.heap)
    decreases fuel, 2, 0
  {
    match cb
    case PropagateResolution(child, None) =>
      SettleRun(h, child.promise, true, h[p].value, fuel)
    case PropagateResolution(child, Some(success)) =>
      var reaction := success(h[p].value);
      var run := RunEffects(h, reaction.effects, 0, fuel);
      if !run.exit.Normal? then run
      else (
        match reaction.ret
        case Raise(e) => Run(run.heap, Threw(e))
        case Returns(Ref(q)) =>
          if q < |run.heap|
          then Run(ThenHeap(run.heap, q, Some(AdoptResolution(child)), Some(AdoptRejection(child))), Normal)
          else Run(run.heap, Dangling)
        case Returns(x) => SettleRun(run.heap, child.promise, true, x, fuel))
    case PropagateRejection(child, None) =>
      SettleRun(h, child.promise, false, h[p].value, fuel)
    case PropagateRejection(child, Some(failure)) =>
      var reaction := failure(h[p].value);
      var run := RunEffects(h, reaction.effects, 0, fuel);
      if !run.exit.Normal? then run
      else if reaction.ret.Raise? then Run(run.heap, Threw(reaction.ret.error))
      else SettleRun(run.heap, child.promise, false, run.heap[p].value, fuel)
  }

  /** The resolve/reject calls a user handler makes, i.. in order; an
      exception from one stops the handler. */
  function RunEffects(h: Heap, effects: seq<Effect>, i: nat, fuel: nat): (r: Run)
    requires i <= |effects|
    ensures Grows(h, r.heap)
    decreases fuel, 1, |effects| - i
  {
    if i == |effects| then Run(h, Normal)
    else
      var e := effects[i];
      var run := SettleRun(h, e.target.promise, e.resolve, e.payload, fuel);
      if !run.exit.Normal? then run
      else RunEffects(run.heap, effects, i + 1, fuel)
  }
}
