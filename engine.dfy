/** The engine as the source runs it: promise objects are updated in place,
    `then` pushes onto their callback lists, and `resolve`/`reject` loop over
    those lists, calling one another re-entrantly. Every method is proved to
    compute exactly what the functions of module Propagation describe. */
module Engine {
  import opened Promises
  import opened Propagation

  /** A user function in error-first callback style, reduced to what it does
      with the callback it is handed during the call: invoke it once with an
      error flag, the error and the value, or leave it uncalled. */
  datatype NodeCall = CallsBack(failed: bool, err: Value, val: Value) | Silent

  type NodeFunction = Value -> NodeCall

  /** The closure `promisify` returns: the wrapped function and the single
      deferred it shares between all of its invocations. */
  datatype Lifted = Lifted(fnc: NodeFunction, deferred: Deferred)

  /** One invocation of a promisified function: call `fnc`, and if it calls
      back, reject the shared deferred on a truthy error, else resolve it. */
  function LiftedRun(h: Heap, l: Lifted, arg: Value, fuel: nat): (r: Run)
    ensures Grows(h, r.heap)
    ensures l.fnc(arg).Silent? ==> r == Run(h, Normal)
  {
    match l.fnc(arg)
    case Silent => Run(h, Normal)
    case CallsBack(failed, err, val) =>
      if failed then SettleRun(h, l.deferred.promise, false, err, fuel)
      else SettleRun(h, l.deferred.promise, true, val, fuel)
  }

  /** Every promise object of a program run. */
  class Runtime {
    var promises: seq<Promise>

    constructor ()
      ensures promises == []
    {
      promises := [];
    }

    /** `new Promise(value, status)`: a status left out means waiting. */
    method NewPromise(value: Value, status: Option<Status>) returns (p: PromiseId)
      modifies this
      ensures p == |old(promises)| && |promises| == p + 1
      ensures promises[..p] == old(promises)
      ensures promises[p].value == value
      ensures promises[p].status == (if status.Some? then status.value else Waiting)
      ensures promises[p].successCallbacks == [] && promises[p].failureCallbacks == []
    {
      var s := Waiting;
      if status.Some? {
        s := status.value;
      }
      p := |promises|;
      promises := promises + [Promise(value, s, [], [])];
    }

    /** `new Deferred(promise)`: wrap the given promise, or a fresh blank one. */
    method NewDeferred(existing: Option<PromiseId>) returns (d: Deferred)
      modifies this
      ensures existing.Some? ==> d.promise == existing.value && promises == old(promises)
      ensures existing.None? ==> d.promise == |old(promises)| && promises == old(promises) + [Blank]
    {
      if existing.Some? {
        d := Deferred(existing.value);
      } else {
        var p := NewPromise(Undefined, None);
        d := Deferred(p);
      }
    }

    /** `defer()`: a deferred around a fresh, waiting promise. */
    method Defer() returns (d: Deferred)
      modifies this
      ensures d.promise == |old(promises)| && promises == old(promises) + [Blank]
    {
      d := NewDeferred(None);
    }

    /** `promise.then(success, failure)`. */
    method Then(p: PromiseId, success: Option<Handler>, failure: Option<Handler>) returns (child: PromiseId)
      requires p < |promises|
      modifies this
      ensures child == |old(promises)|
      ensures promises == ThenHeap(old(promises), p, success, failure)
    {
      var d := NewDeferred(None);
      var parent := promises[p];
      promises := promises[p := parent.(successCallbacks := parent.successCallbacks + [PropagateResolution(d, success)])];
      parent := promises[p];
      promises := promises[p := parent.(failureCallbacks := parent.failureCallbacks + [PropagateRejection(d, failure)])];
      child := d.promise;
    }

    /** `promise.catch(failure)`: exactly `then(undefined, failure)`. */
    method Catch(p: PromiseId, failure: Option<Handler>) returns (child: PromiseId)
      requires p < |promises|
      modifies this
      ensures child == |old(promises)|
      ensures promises == ThenHeap(old(promises), p, None, failure)
    {
      child := Then(p, None, failure);
    }

    /** `deferred.resolve(data)`; returns the promise's value as it is once
      every callback has run. */
    method Resolve(d: Deferred, data: Value, fuel: nat) returns (r: Value, exit: Exit)
      modifies this
      ensures Run(promises, exit) == SettleRun(old(promises), d.promise, true, data, fuel)
      ensures exit.Normal? ==> d.promise < |promises| && r == promises[d.promise].value
      decreases fuel, 0, 0
    {
      r := Undefined;
      if fuel == 0 {
        return r, Overflow;
      }
      if d.promise >= |promises| {
        return r, Dangling;
      }
      var p := d.promise;
      promises := promises[p := promises[p].(value := data, status := Resolved)];
      exit := Fire(p, promises[p].successCallbacks, fuel - 1);
      if exit.Normal? {
        r := promises[p].value;
      }
    }

    /** `deferred.reject(error)`. */
    method Reject(d: Deferred, error: Value, fuel: nat) returns (exit: Exit)
      modifies this
      ensures Run(promises, exit) == SettleRun(old(promises), d.promise, false, error, fuel)
      decreases fuel, 0, 0
    {
      if fuel == 0 {
        return Overflow;
      }
      if d.promise >= |promises| {
        return Dangling;
      }
      var p := d.promise;
      promises := promises[p := promises[p].(value := error, status := Rejected)];
      exit := Fire(p, promises[p].failureCallbacks, fuel - 1);
    }

    /** The `forEach`: the list's length is fixed when the loop starts, so
      callbacks appended while it runs are not visited. */
    method Fire(p: PromiseId, cbs: seq<Callback>, fuel: nat) returns (exit: Exit)
      requires p < |promises|
      modifies this
      ensures Run(promises, exit) == FireAll(old(promises), p, cbs, 0, fuel)
      decreases fuel, 2, |cbs|
    {
      var i := 0;
      while i < |cbs|
        invariant i <= |cbs| && p < |promises|
        invariant FireAll(promises, p, cbs, i, fuel) == FireAll(old(promises), p, cbs, 0, fuel)
      {
        exit := Invoke(p, cbs[i], fuel);
        if !exit.Normal? {
          return;
        }
        i := i + 1;
      }
      exit := Normal;
    }

    /** One propagation closure, called with the promise it fires for. */
    method Invoke(p: PromiseId, cb: Callback, fuel: nat) returns (exit: Exit)
      requires p < |promises|
      modifies this
      ensures Run(promises, exit) == RunCallback(old(promises), p, cb, fuel)
      decreases fuel, 2, 0
    {
      var ignored: Value;
      match cb
      case PropagateResolution(child, success) =>
        if success.None? {
          ignored, exit := Resolve(child, promises[p].value, fuel);
          return;
        }
        var reaction := success.value(promises[p].value);
        exit := Perform(reaction.effects, fuel);
        if !exit.Normal? {
          return;
        }
        match reaction.ret {
          case Raise(e) =>
            exit := Threw(e);
          case Returns(Ref(q)) =>
            if q < |promises| {
              var grandchild := Then(q, Some(AdoptResolution(child)), Some(AdoptRejection(child)));
            } else {
              exit := Dangling;
            }
          case Returns(x) =>
            ignored, exit := Resolve(child, x, fuel);
        }
      case PropagateRejection(child, failure) =>
        if failure.Some? {
          var reaction := failure.value(promises[p].value);
          exit := Perform(reaction.effects, fuel);
          if !exit.Normal? {
            return;
          }
          if reaction.ret.Raise? {
            return Threw(reaction.ret.error);
          }
        }
        exit := Reject(child, promises[p].value, fuel);
    }

    /** The resolve/reject calls a user handler makes, in order. */
    method Perform(effects: seq<Effect>, fuel: nat) returns (exit: Exit)
      modifies this
      ensures Run(promises, exit) == RunEffects(old(promises), effects, 0, fuel)
      decreases fuel, 1, |effects|
    {
      var i := 0;
      while i < |effects|
        invariant i <= |effects|
        invariant RunEffects(promises, effects, i, fuel) == RunEffects(old(promises), effects, 0, fuel)
      {
        var e := effects[i];
        if e.resolve {
          var ignored: Value;
          ignored, exit := Resolve(e.target, e.payload, fuel);
        } else {
          exit := Reject(e.target, e.payload, fuel);
        }
        if !exit.Normal? {
          return;
        }
        i := i + 1;
      }
      exit := Normal;
    }

    /** `promisify(fnc)`: one deferred is allocated now, for every later call. */
    method Promisify(fnc: NodeFunction) returns (l: Lifted)
      modifies this
      ensures l.fnc == fnc
      ensures l.deferred.promise == |old(promises)| && promises == old(promises) + [Blank]
    {
      var d := Defer();
      l := Lifted(fnc, d);
    }

    /** Calling the function `promisify` returned: unless an exception escapes
      from the settling, it hands back the shared deferred's promise. */
    method CallLifted(l: Lifted, arg: Value, fuel: nat) returns (p: Option<PromiseId>, exit: Exit)
      modifies this
      ensures p.Some? <==> exit.Normal?
      ensures p.Some? ==> p.value == l.deferred.promise
      ensures Run(promises, exit) == LiftedRun(old(promises), l, arg, fuel)
    {
      exit := Normal;
      match l.fnc(arg) {
        case Silent =>
        case CallsBack(failed, err, val) =>
          if failed {
            exit := Reject(l.deferred, err, fuel);
          } else {
            var ignored: Value;
            ignored, exit := Resolve(l.deferred, val, fuel);
          }
      }
      p := if exit.Normal? then Some(l.deferred.promise) else None;
    }
  }
}
