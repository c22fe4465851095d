/** Laws about whole chains: a promise, the children `then` hangs off it, and
    what they hold once the parent is resolved or rejected. Each starts from
    an arbitrary heap in which the parent has nothing registered yet for the
    outcome in question. */
module Chains {
  import opened Promises
  import opened Propagation
  import opened Engine
  import opened Laws

  /** `then(success, failure)` and then `resolve(v)`: the child resolves with
      the parent's value when there is no success handler, and with `x` when
      the handler returns the plain value `x`; the failure path is not taken.
      The parent itself holds `v`, resolved. */
  lemma ResolveThroughThen(h: Heap, p: PromiseId, success: Option<Handler>, failure: Option<Handler>,
                           v: Value, x: Value, fuel: nat)
    requires p < |h| && h[p].successCallbacks == [] && fuel > 1
    requires success.None? ==> x == v
    requires success.Some? ==> !x.Ref? && success.value(v) == Reaction([], Returns(x))
    ensures var h1 := ThenHeap(h, p, success, failure);
            var r := SettleRun(h1, p, true, v, fuel);
            && r.exit == Normal
            && |r.heap| == |h| + 1
            && r.heap[|h|] == Promise(x, Resolved, [], [])
            && r.heap[p] == Settled(h1[p], true, v)
            && forall i :: 0 <= i < |h| && i != p ==> r.heap[i] == h[i]
  {
    var c := Deferred(|h|);
    var h1 := ThenHeap(h, p, success, failure);
    var h2 := h1[p := Settled(h1[p], true, v)];
    assert h1[p].successCallbacks == [PropagateResolution(c, success)];
    FireSingle(h2, p, PropagateResolution(c, success), fuel - 1);
    if success.None? {
      PassThrough(h2, p, c, fuel - 1);
    } else {
      PlainResult(h2, p, c, success.value, x, fuel - 1);
    }
  }

  /** `then(success, failure)` and then `reject(e)`: the child is rejected
      with `e`, with or without a failure handler and whatever a handler
      returns, so long as it does not throw; the success path is not taken. */
  lemma RejectThroughThen(h: Heap, p: PromiseId, success: Option<Handler>, failure: Option<Handler>,
                          e: Value, fuel: nat)
    requires p < |h| && h[p].failureCallbacks == [] && fuel > 1
    requires failure.Some? ==> failure.value(e).effects == [] && !failure.value(e).ret.Raise?
    ensures var h1 := ThenHeap(h, p, success, failure);
            var r := SettleRun(h1, p, false, e, fuel);
            && r.exit == Normal
            && |r.heap| == |h| + 1
            && r.heap[|h|] == Promise(e, Rejected, [], [])
            && r.heap[p] == Settled(h1[p], false, e)
            && forall i :: 0 <= i < |h| && i != p ==> r.heap[i] == h[i]
  {
    var c := Deferred(|h|);
    var h1 := ThenHeap(h, p, success, failure);
    var h2 := h1[p := Settled(h1[p], false, e)];
    assert h1[p].failureCallbacks == [PropagateRejection(c, failure)];
    FireSingle(h2, p, PropagateRejection(c, failure), fuel - 1);
    RejectionAlwaysRejects(h2, p, c, failure, fuel - 1);
  }

  /** A promise passed to `resolve` or `reject` as the payload is stored as
      it is: a pass-through child receives the reference itself, with the
      parent's outcome, and the referenced promise `q` is neither waited on
      nor touched. Only a handler's return value is unwrapped. */
  lemma PromisePayloadNotUnwrapped(h: Heap, p: PromiseId, q: PromiseId, failure: Option<Handler>,
                                   outcome: bool, fuel: nat)
    requires p < |h| && q < |h| && p != q && fuel > 1
    requires h[p].successCallbacks == [] && h[p].failureCallbacks == []
    requires failure.Some? ==> failure.value(Ref(q)).effects == [] && !failure.value(Ref(q)).ret.Raise?
    ensures var r := SettleRun(ThenHeap(h, p, None, failure), p, outcome, Ref(q), fuel);
            && r.exit == Normal
            && r.heap[|h|] == Promise(Ref(q), if outcome then Resolved else Rejected, [], [])
            && r.heap[q] == h[q]
  {
    if outcome {
      ResolveThroughThen(h, p, None, failure, Ref(q), Ref(q), fuel);
    } else {
      RejectThroughThen(h, p, None, failure, Ref(q), fuel);
    }
  }

  /** `catch(f)` is `then(undefined, f)`: rejecting the parent rejects the
      child with the same value even when `f` returns a promise or a value. */
  lemma CatchNeverRecovers(h: Heap, p: PromiseId, f: Handler, e: Value, fuel: nat)
    requires p < |h| && h[p].failureCallbacks == [] && fuel > 1
    requires f(e).effects == [] && !f(e).ret.Raise?
    ensures SettleRun(ThenHeap(h, p, None, Some(f)), p, false, e, fuel).heap[|h|]
            == Promise(e, Rejected, [], [])
  {
    RejectThroughThen(h, p, None, Some(f), e, fuel);
  }

  /** Flattening. A success handler returns a promise `q`: once the parent
      resolves, the child is still waiting; it takes q's value and outcome
      when `q` is later resolved (inner == true) or rejected. */
  lemma Flattening(h: Heap, p: PromiseId, q: PromiseId, f: Handler, failure: Option<Handler>,
                   v: Value, inner: bool, y: Value, fuel: nat)
    requires p < |h| && q < |h| && p != q && fuel > 2
    requires h[p].successCallbacks == []
    requires h[q].successCallbacks == [] && h[q].failureCallbacks == []
    requires f(v) == Reaction([], Returns(Ref(q)))
    ensures var h1 := ThenHeap(h, p, Some(f), failure);
            var r1 := SettleRun(h1, p, true, v, fuel);
            && r1.exit == Normal
            && r1.heap[|h|] == Blank
            && var r2 := SettleRun(r1.heap, q, inner, y, fuel);
               && r2.exit == Normal
               && r2.heap[|h|] == Promise(y, if inner then Resolved else Rejected, [], [])
  {
    var c := Deferred(|h|);
    var g := Deferred(|h| + 1);
    var h1 := ThenHeap(h, p, Some(f), failure);
    var h2 := h1[p := Settled(h1[p], true, v)];
    assert h1[p].successCallbacks == [PropagateResolution(c, Some(f))];
    FireSingle(h2, p, PropagateResolution(c, Some(f)), fuel - 1);
    ThenableResult(h2, p, c, f, q, fuel - 1);
    var h3 := ThenHeap(h2, q, Some(AdoptResolution(c)), Some(AdoptRejection(c)));
    assert SettleRun(h1, p, true, v, fuel) == Run(h3, Normal);
    assert h2[q] == h[q];
    var h4 := h3[q := Settled(h3[q], inner, y)];
    if inner {
      assert h3[q].successCallbacks == [PropagateResolution(g, Some(AdoptResolution(c)))];
      FireSingle(h4, q, PropagateResolution(g, Some(AdoptResolution(c))), fuel - 1);
      AdoptResolves(h4, q, g, c, fuel - 1);
    } else {
      assert h3[q].failureCallbacks == [PropagateRejection(g, Some(AdoptRejection(c)))];
      FireSingle(h4, q, PropagateRejection(g, Some(AdoptRejection(c))), fuel - 1);
      AdoptRejects(h4, q, g, c, fuel - 1);
    }
  }

  /** A success handler that first resolves the promise `w` and then returns
      it. Because `then` on an already settled promise only registers, the
      adoption closures land on `w` after it has fired: `w` holds the value
      but the child is still waiting when the outer `resolve` returns. */
  lemma SettledReturnLeavesChildWaiting(h: Heap, p: PromiseId, w: PromiseId, f: Handler,
                                        v: Value, u: Value, fuel: nat)
    requires p < |h| && w < |h| && p != w && fuel > 1
    requires h[p].successCallbacks == [] && h[w].successCallbacks == []
    requires f(v) == Reaction([Effect(Deferred(w), true, u)], Returns(Ref(w)))
    ensures var h1 := ThenHeap(h, p, Some(f), None);
            var r := SettleRun(h1, p, true, v, fuel);
            && r.exit == Normal
            && r.heap[w].value == u && r.heap[w].status == Resolved
            && r.heap[|h|] == Blank
  {
    var c := Deferred(|h|);
    var h1 := ThenHeap(h, p, Some(f), None);
    var h2 := h1[p := Settled(h1[p], true, v)];
    assert h1[p].successCallbacks == [PropagateResolution(c, Some(f))];
    FireSingle(h2, p, PropagateResolution(c, Some(f)), fuel - 1);
    var effects := [Effect(Deferred(w), true, u)];
    var hw := h2[w := Settled(h2[w], true, u)];
    SettleLeaf(h2, w, true, u, fuel - 1);
    assert RunEffects(h2, effects, 0, fuel - 1) == Run(hw, Normal) by {
      assert RunEffects(hw, effects, 1, fuel - 1) == Run(hw, Normal);
    }
  }

  /** Fan-out in registration order. Two `then`s on one promise give two
      independent children, each resolved with its own handler's result; the
      handler registered first runs first, so when both also resolve a third
      promise `w`, `w` ends with the second handler's payload. */
  lemma FanOutInOrder(h: Heap, p: PromiseId, w: PromiseId, f1: Handler, f2: Handler,
                      v: Value, x1: Value, x2: Value, a: Value, b: Value, fuel: nat)
    requires p < |h| && w < |h| && p != w && fuel > 1
    requires h[p].successCallbacks == [] && h[w].successCallbacks == []
    requires f1(v) == Reaction([Effect(Deferred(w), true, a)], Returns(x1)) && !x1.Ref?
    requires f2(v) == Reaction([Effect(Deferred(w), true, b)], Returns(x2)) && !x2.Ref?
    ensures var h1 := ThenHeap(ThenHeap(h, p, Some(f1), None), p, Some(f2), None);
            var r := SettleRun(h1, p, true, v, fuel);
            && r.exit == Normal
            && r.heap[|h|] == Promise(x1, Resolved, [], [])
            && r.heap[|h| + 1] == Promise(x2, Resolved, [], [])
            && r.heap[w].value == b && r.heap[w].status == Resolved
  {
    var c1, c2 := Deferred(|h|), Deferred(|h| + 1);
    var cb1, cb2 := PropagateResolution(c1, Some(f1)), PropagateResolution(c2, Some(f2));
    var h1 := ThenHeap(ThenHeap(h, p, Some(f1), None), p, Some(f2), None);
    var h2 := h1[p := Settled(h1[p], true, v)];
    assert h1[p].successCallbacks == [cb1] + [cb2];
    FireSplit(h2, p, [cb1], [cb2], 0, fuel - 1);
    FireSingle(h2, p, cb1, fuel - 1);
    var h3 := OneEffectThenPlain(h2, p, c1, f1, w, a, x1, fuel - 1);
    FireSingle(h3, p, cb2, fuel - 1);
    var h4 := OneEffectThenPlain(h3, p, c2, f2, w, b, x2, fuel - 1);
  }

  /** A success handler that resolves the leaf promise `w` with `a` and then
      returns the plain value `x`, fired for a leaf child `d`. */
  lemma OneEffectThenPlain(h: Heap, p: PromiseId, d: Deferred, f: Handler, w: PromiseId, a: Value, x: Value, fuel: nat)
    returns (h': Heap)
    requires p < |h| && w < |h| && d.promise < |h| && w != d.promise && p != w && fuel > 0
    requires h[w].successCallbacks == [] && h[d.promise].successCallbacks == []
    requires f(h[p].value) == Reaction([Effect(Deferred(w), true, a)], Returns(x)) && !x.Ref?
    ensures h' == h[w := Settled(h[w], true, a)][d.promise := Settled(h[d.promise], true, x)]
    ensures RunCallback(h, p, PropagateResolution(d, Some(f)), fuel) == Run(h', Normal)
  {
    var effects := [Effect(Deferred(w), true, a)];
    var hw := h[w := Settled(h[w], true, a)];
    SettleLeaf(h, w, true, a, fuel);
    assert RunEffects(h, effects, 0, fuel) == Run(hw, Normal) by {
      assert RunEffects(hw, effects, 1, fuel) == Run(hw, Normal);
    }
    SettleLeaf(hw, d.promise, true, x, fuel);
    h' := hw[d.promise := Settled(hw[d.promise], true, x)];
  }

  /** Re-entrant resolution. A success handler that resolves another,
      unrelated deferred `w` (whose promise has a `then` child of its own)
      completes that nested resolution, the child of `w` included, before the
      outer `resolve` returns. */
  lemma NestedResolutionCompletes(h: Heap, p: PromiseId, w: PromiseId, f: Handler,
                                  v: Value, u: Value, x: Value, fuel: nat)
    requires p < |h| && w < |h| && p != w && fuel > 2
    requires h[p].successCallbacks == [] && h[w].successCallbacks == []
    requires f(v) == Reaction([Effect(Deferred(w), true, u)], Returns(x)) && !x.Ref?
    ensures var h1 := ThenHeap(ThenHeap(h, w, None, None), p, Some(f), None);
            var r := SettleRun(h1, p, true, v, fuel);
            && r.exit == Normal
            && r.heap[w].value == u && r.heap[w].status == Resolved
            && r.heap[|h|] == Promise(u, Resolved, [], [])
            && r.heap[|h| + 1] == Promise(x, Resolved, [], [])
  {
    var cw, c := Deferred(|h|), Deferred(|h| + 1);
    var h0 := ThenHeap(h, w, None, None);
    var h1 := ThenHeap(h0, p, Some(f), None);
    var h2 := h1[p := Settled(h1[p], true, v)];
    assert h1[p].successCallbacks == [PropagateResolution(c, Some(f))];
    FireSingle(h2, p, PropagateResolution(c, Some(f)), fuel - 1);
    // The nested resolve of w fires w's own propagation to cw.
    var effects := [Effect(Deferred(w), true, u)];
    var hw := h2[w := Settled(h2[w], true, u)];
    assert h2[w].successCallbacks == [PropagateResolution(cw, None)];
    FireSingle(hw, w, PropagateResolution(cw, None), fuel - 2);
    PassThrough(hw, w, cw, fuel - 2);
    var hcw := hw[cw.promise := Settled(hw[cw.promise], true, u)];
    assert SettleRun(h2, w, true, u, fuel - 1) == Run(hcw, Normal);
    assert RunEffects(h2, effects, 0, fuel - 1) == Run(hcw, Normal) by {
      assert RunEffects(hcw, effects, 1, fuel - 1) == Run(hcw, Normal);
    }
    assert h2[p].value == v;
    assert RunCallback(h2, p, PropagateResolution(c, Some(f)), fuel - 1)
           == SettleRun(hcw, c.promise, true, x, fuel - 1);
    SettleLeaf(hcw, c.promise, true, x, fuel - 1);
  }

  /** No settle-once guard, seen through a chain: settling the parent a
      second time re-fires its lists, so a pass-through child follows it to
      the new value and outcome. */
  lemma SecondSettleRefires(h: Heap, p: PromiseId, a: Value, second: bool, b: Value, fuel: nat)
    requires p < |h| && h[p].successCallbacks == [] && h[p].failureCallbacks == [] && fuel > 1
    ensures var h1 := ThenHeap(h, p, None, None);
            var r1 := SettleRun(h1, p, true, a, fuel);
            var r2 := SettleRun(r1.heap, p, second, b, fuel);
            && r1.heap[|h|] == Promise(a, Resolved, [], [])
            && r2.exit == Normal
            && r2.heap[p].value == b && r2.heap[p].status == (if second then Resolved else Rejected)
            && r2.heap[|h|] == Promise(b, if second then Resolved else Rejected, [], [])
  {
    var c := Deferred(|h|);
    var h1 := ThenHeap(h, p, None, None);
    ResolveThroughThen(h, p, None, None, a, a, fuel);
    var r1 := SettleRun(h1, p, true, a, fuel);
    var h3 := r1.heap[p := Settled(r1.heap[p], second, b)];
    if second {
      assert r1.heap[p].successCallbacks == [PropagateResolution(c, None)];
      FireSingle(h3, p, PropagateResolution(c, None), fuel - 1);
      PassThrough(h3, p, c, fuel - 1);
    } else {
      assert r1.heap[p].failureCallbacks == [PropagateRejection(c, None)];
      FireSingle(h3, p, PropagateRejection(c, None), fuel - 1);
      RejectionAlwaysRejects(h3, p, c, None, fuel - 1);
    }
  }

  /** `promisify`: a call whose function reports a truthy error rejects the
      shared promise with that error; one that reports success resolves it
      with the value; one that does not call back leaves everything as it
      was. Every call settles the same promise again, so the promise shows the
      last call's outcome. */
  lemma LiftedSettlesSharedPromise(h: Heap, l: Lifted, arg1: Value, arg2: Value, fuel: nat)
    requires l.deferred.promise < |h| && fuel > 0
    requires h[l.deferred.promise].successCallbacks == [] && h[l.deferred.promise].failureCallbacks == []
    requires l.fnc(arg2).CallsBack?
    ensures var q := l.deferred.promise;
            var r1 := LiftedRun(h, l, arg1, fuel);
            var r2 := LiftedRun(r1.heap, l, arg2, fuel);
            && r1.exit == Normal && r2.exit == Normal
            && (l.fnc(arg1).Silent? ==> r1.heap == h)
            && r2.heap[q] == if l.fnc(arg2).failed
                             then Promise(l.fnc(arg2).err, Rejected, [], [])
                             else Promise(l.fnc(arg2).val, Resolved, [], [])
  {
    var q := l.deferred.promise;
    var h1 := h;
    match l.fnc(arg1) {
      case Silent =>
      case CallsBack(failed, err, val) =>
        SettleLeaf(h, q, !failed, if failed then err else val, fuel);
        h1 := h[q := Settled(h[q], !failed, if failed then err else val)];
    }
    assert LiftedRun(h, l, arg1, fuel) == Run(h1, Normal);
    var call := l.fnc(arg2);
    SettleLeaf(h1, q, !call.failed, if call.failed then call.err else call.val, fuel);
  }
}
