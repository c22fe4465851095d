/** Small programs written against the engine's public surface (`defer`,
    `then`, `catch`, `resolve`, `reject`, `promisify`), with what each leaves
    behind. */
module Scenarios {
  import opened Promises
  import opened Engine
  import opened Laws
  import opened Chains

  /** `x => x + 1`, for the payloads that occur here (`undefined + 1` is NaN,
      which the model has no value for; it is kept as `undefined`; a promise
      object converts to the string "[object Object]"). */
  function PlusOne(x: Value): (r: Reaction)
    ensures r.effects == [] && r.ret.Returns? && !r.ret.value.Ref?
    ensures x.Num? ==> r.ret.value == Num(x.n + 1)
  {
    match x
    case Num(n) => Reaction([], Returns(Num(n + 1)))
    case Text(s) => Reaction([], Returns(Text(s + "1")))
    case Undefined => Reaction([], Returns(Undefined))
    case Ref(_) => Reaction([], Returns(Text("[object Object]1")))
  }

  /** `e => e`. */
  function Identity(x: Value): (r: Reaction)
    ensures r.effects == [] && r.ret == Returns(x)
  {
    Reaction([], Returns(x))
  }

  /** `d = defer(); p = d.promise.then(x => x + 1); d.resolve(5)` leaves p
      resolved with 6. */
  method IncrementChain() returns (value: Value, status: Status)
    ensures value == Num(6) && status == Resolved
  {
    var rt := new Runtime();
    var d := rt.Defer();
    ghost var h := rt.promises;
    var p := rt.Then(d.promise, Some(PlusOne), None);
    ResolveThroughThen(h, d.promise, Some(PlusOne), None, Num(5), Num(6), 2);
    var r, exit := rt.Resolve(d, Num(5), 2);
    value, status := rt.promises[p].value, rt.promises[p].status;
  }

  /** `d = defer(); t = d.promise.then(x => x + 1); c = t.catch(e => e);
      d.reject("boom")` leaves both t and c rejected with "boom". */
  method RejectionThroughCatch() returns (middle: Promise, last: Promise)
    ensures middle.value == Text("boom") && middle.status == Rejected
    ensures last == Promise(Text("boom"), Rejected, [], [])
  {
    var rt := new Runtime();
    var d := rt.Defer();
    ghost var h0 := rt.promises;
    var t := rt.Then(d.promise, Some(PlusOne), None);
    ghost var h1 := rt.promises;
    var c := rt.Catch(t, Some(Identity));
    ghost var h2 := rt.promises;
    var exit := rt.Reject(d, Text("boom"), 3);
    // d's failure list holds the propagation to t, t's the one to c.
    ghost var boom := Text("boom");
    ghost var g2 := h2[0 := Settled(h2[0], false, boom)];
    assert h2[0].failureCallbacks == [PropagateRejection(Deferred(t), None)];
    FireSingle(g2, 0, PropagateRejection(Deferred(t), None), 2);
    ghost var g1 := h1[0 := Settled(h1[0], false, boom)];
    assert g2 == ThenHeap(g1, t, None, Some(Identity));
    RejectThroughThen(g1, t, None, Some(Identity), boom, 2);
    middle, last := rt.promises[t], rt.promises[c];
  }

  /** `d = defer(); d2 = defer(); p = d.promise.then(x => { d2.resolve(x * 2);
      return d2.promise; }); d.resolve(3)`: d2 holds 6, but p is still
      waiting, because the adoption closures are registered on d2 only after
      d2 has already fired. */
  method EagerInnerPromise() returns (inner: Promise, child: Promise)
    ensures inner.value == Num(6) && inner.status == Resolved
    ensures child == Blank
  {
    var rt := new Runtime();
    var d := rt.Defer();
    var d2 := rt.Defer();
    ghost var h := rt.promises;
    var f := (x: Value) => Reaction([Effect(d2, true, if x.Num? then Num(x.n * 2) else Undefined)], Returns(Ref(d2.promise)));
    var p := rt.Then(d.promise, Some(f), None);
    SettledReturnLeavesChildWaiting(h, d.promise, d2.promise, f, Num(3), Num(6), 2);
    var r, exit := rt.Resolve(d, Num(3), 2);
    inner, child := rt.promises[d2.promise], rt.promises[p];
  }

  /** A promisified function fails on 0 and succeeds otherwise. Two calls
      return the same promise, which ends up showing the second call's
      outcome. */
  method SharedLiftedPromise() returns (p1: Option<PromiseId>, p2: Option<PromiseId>, last: Promise)
    ensures p1.Some? && p1 == p2
    ensures last == Promise(Text("zero"), Rejected, [], [])
  {
    var rt := new Runtime();
    var fnc := (x: Value) => if x == Num(0) then CallsBack(true, Text("zero"), Undefined) else CallsBack(false, Undefined, x);
    var l := rt.Promisify(fnc);
    ghost var h := rt.promises;
    LiftedSettlesSharedPromise(h, l, Num(4), Num(0), 1);
    var e1, e2;
    p1, e1 := rt.CallLifted(l, Num(4), 1);
    p2, e2 := rt.CallLifted(l, Num(0), 1);
    last := rt.promises[p2.value];
  }
}
