/** The records of the promise engine: statuses, payloads, promise records,
    deferreds, the callbacks that `then` registers, and the scripted behaviour
    of user handlers. */
module Promises {

  datatype Option<+T> = None | Some(value: T)

  /** The three sentinel objects a promise's status is compared against. */
  datatype Status = Waiting | Resolved | Rejected

  /** An untyped JavaScript payload, reduced to the shapes the model needs:
      `undefined`, numbers, strings and references to promise objects. A
      promise stored as a payload is kept as it is, never unwrapped. */
  datatype Value = Undefined | Num(n: int) | Text(s: string) | Ref(promise: PromiseId)

  /** A promise object is identified by its position in the heap. */
  type PromiseId = nat

  /** A deferred owns exactly one promise; it is the handle that resolves or
      rejects it. */
  datatype Deferred = Deferred(promise: PromiseId)

  /** A call of `resolve` (or `reject`) on some deferred, made by user code
      while it runs inside a callback. */
  datatype Effect = Effect(target: Deferred, resolve: bool, payload: Value)

  /** How a user handler finishes: it returns a value (a `Ref` being the
      `instanceof Promise` case), or throws. */
  datatype Ret = Returns(value: Value) | Raise(error: Value)

  /** What a user handler does when called: the resolve/reject calls it makes,
      in order, and then how it finishes. */
  datatype Reaction = Reaction(effects: seq<Effect>, ret: Ret)

  /** A user continuation, as an abstract function of the value it is given. */
  type Handler = Value -> Reaction

  /** The two closures `then` builds. Each captures the child deferred and the
      optional user handler; each is called with the promise that fires it. */
  datatype Callback =
    | PropagateResolution(child: Deferred, success: Option<Handler>)
    | PropagateRejection(child: Deferred, failure: Option<Handler>)

  /** A promise record: a value, a status and two ordered callback lists. */
  datatype Promise = Promise(value: Value, status: Status,
                             successCallbacks: seq<Callback>,
                             failureCallbacks: seq<Callback>)

  /** All promise objects in existence, indexed by id. */
  type Heap = seq<Promise>

  /** What `new Promise()` builds: no value, waiting, no callbacks. */
  const Blank: Promise := Promise(Undefined, Waiting, [], [])

  /** A promise whose value and status were just overwritten by `resolve`
      (resolve == true) or `reject`; its callback lists are untouched. */
  function Settled(pr: Promise, resolve: bool, data: Value): (r: Promise)
    ensures r.value == data
    ensures r.status != Waiting && (r.status == Resolved <==> resolve)
    ensures r.successCallbacks == pr.successCallbacks && r.failureCallbacks == pr.failureCallbacks
  {
    pr.(value := data, status := if resolve then Resolved else Rejected)
  }

  /** The heap after `h[p].then(success, failure)`: a blank child promise is
      allocated at the end, one success propagation is appended to the
      parent's success list and one rejection propagation to its failure list;
      nothing else changes. */
  function ThenHeap(h: Heap, p: PromiseId, success: Option<Handler>, failure: Option<Handler>): (r: Heap)
    requires p < |h|
    ensures |r| == |h| + 1 && r[|h|] == Blank
    ensures r[p].value == h[p].value && r[p].status == h[p].status
    ensures r[p].successCallbacks == h[p].successCallbacks + [PropagateResolution(Deferred(|h|), success)]
    ensures r[p].failureCallbacks == h[p].failureCallbacks + [PropagateRejection(Deferred(|h|), failure)]
    ensures forall i :: 0 <= i < |h| && i != p ==> r[i] == h[i]
  {
    var child := Deferred(|h|);
    var parent := h[p];
    var wired := parent.(successCallbacks := parent.successCallbacks + [PropagateResolution(child, success)],
                         failureCallbacks := parent.failureCallbacks + [PropagateRejection(child, failure)]);
    (h + [Blank])[p := wired]
  }

  /** The internal success handler that flattening registers on a returned
      promise: it resolves the waiting child with the returned promise's value
      and itself returns `undefined`. */
  function AdoptResolution(child: Deferred): (f: Handler)
    ensures forall v :: |f(v).effects| == 1 && f(v).effects[0] == Effect(child, true, v)
    ensures forall v :: f(v).ret == Returns(Undefined)
  {
    (v: Value) => Reaction([Effect(child, true, v)], Returns(Undefined))
  }

  /** The internal failure handler that flattening registers on a returned
      promise: it rejects the waiting child with the returned promise's value
      and itself returns `undefined`. */
  function AdoptRejection(child: Deferred): (f: Handler)
    ensures forall v :: |f(v).effects| == 1 && f(v).effects[0] == Effect(child, false, v)
    ensures forall v :: f(v).ret == Returns(Undefined)
  {
    (v: Value) => Reaction([Effect(child, false, v)], Returns(Undefined))
  }

  /** Append-only growth of the heap: no promise disappears and every callback
      list only gets longer, keeping its old entries in their old order. */
  ghost predicate Grows(h: Heap, h': Heap) {
    && |h| <= |h'|
    && forall i :: 0 <= i < |h| ==>
         && h[i].successCallbacks <= h'[i].successCallbacks
         && h[i].failureCallbacks <= h'[i].failureCallbacks
  }
}
