/** What the engine promises, proved about the functions of module
    Propagation (and therefore, through the methods' postconditions, about
    the imperative engine). */
module Laws {
  import opened Promises
  import opened Propagation

  /** The list `resolve` (resolve == true) or `reject` fires on a promise. */
  function ListFor(pr: Promise, resolve: bool): (cbs: seq<Callback>)
    ensures cbs == pr.successCallbacks || cbs == pr.failureCallbacks
  {
    if resolve then pr.successCallbacks else pr.failureCallbacks
  }

  // ---------------------------------------------------------------------
  // Firing order

  /** Firing a list is firing its first part and then, unless an exception
      stopped it, its second part: callbacks run in insertion order, each on
      the heap the previous ones left behind. */
  lemma {:induction false} FireSplit(h: Heap, p: PromiseId, a: seq<Callback>, b: seq<Callback>, i: nat, fuel: nat)
    requires p < |h| && i <= |a|
    ensures var first := FireAll(h, p, a, i, fuel);
            FireAll(h, p, a + b, i, fuel)
              == if first.exit.Normal? then FireAll(first.heap, p, b, 0, fuel) else first
    decreases |a| - i
  {
    if i == |a| {
      FireShift(h, p, a, b, 0, fuel);
    } else {
      assert (a + b)[i] == a[i];
      var run := RunCallback(h, p, a[i], fuel);
      if run.exit.Normal? {
        FireSplit(run.heap, p, a, b, i + 1, fuel);
      }
    }
  }

  /** Firing the tail `b` of `a + b` from position |a| + j is firing `b` from j. */
  lemma {:induction false} FireShift(h: Heap, p: PromiseId, a: seq<Callback>, b: seq<Callback>, j: nat, fuel: nat)
    requires p < |h| && j <= |b|
    ensures FireAll(h, p, a + b, |a| + j, fuel) == FireAll(h, p, b, j, fuel)
    decreases |b| - j
  {
    if j < |b| {
      assert (a + b)[|a| + j] == b[j];
      var run := RunCallback(h, p, b[j], fuel);
      if run.exit.Normal? {
        FireShift(run.heap, p, a, b, j + 1, fuel);
      }
    }
  }

  /** A list of one callback fires exactly that callback. */
  lemma FireSingle(h: Heap, p: PromiseId, cb: Callback, fuel: nat)
    requires p < |h|
    ensures FireAll(h, p, [cb], 0, fuel) == RunCallback(h, p, cb, fuel)
  {
    var run := RunCallback(h, p, cb, fuel);
    if run.exit.Normal? {
      assert FireAll(run.heap, p, [cb], 1, fuel) == Run(run.heap, Normal);
    }
  }

  // ---------------------------------------------------------------------
  // resolve and reject on a promise with nothing registered for the outcome

  /** With nothing registered for the outcome, `resolve`/`reject` only
      overwrite value and status. */
  lemma SettleLeaf(h: Heap, q: PromiseId, resolve: bool, v: Value, fuel: nat)
    requires q < |h| && fuel > 0 && ListFor(h[q], resolve) == []
    ensures SettleRun(h, q, resolve, v, fuel) == Run(h[q := Settled(h[q], resolve, v)], Normal)
  {
  }

  /** There is no settle-once guard: a settled promise is overwritten by the
      next `resolve` or `reject`, whatever its status was. */
  lemma {:induction false} NoSettleOnceGuard(h: Heap, q: PromiseId, first: bool, a: Value, second: bool, b: Value, fuel: nat)
    requires q < |h| && fuel > 0
    requires h[q].successCallbacks == [] && h[q].failureCallbacks == []
    ensures var r1 := SettleRun(h, q, first, a, fuel);
            && r1.exit == Normal
            && r1.heap[q] == Promise(a, if first then Resolved else Rejected, [], [])
            && var r2 := SettleRun(r1.heap, q, second, b, fuel);
               && r2.exit == Normal
               && r2.heap[q] == Promise(b, if second then Resolved else Rejected, [], [])
  {
    SettleLeaf(h, q, first, a, fuel);
    var h1 := h[q := Settled(h[q], first, a)];
    SettleLeaf(h1, q, second, b, fuel);
  }

  // ---------------------------------------------------------------------
  // One propagation closure, fired for a child that has nothing registered
  // for the outcome it receives

  /** No success handler: the child resolves with the parent's value. */
  lemma PassThrough(h: Heap, p: PromiseId, d: Deferred, fuel: nat)
    requires p < |h| && d.promise < |h| && fuel > 0
    requires h[d.promise].successCallbacks == []
    ensures RunCallback(h, p, PropagateResolution(d, None), fuel)
            == Run(h[d.promise := Settled(h[d.promise], true, h[p].value)], Normal)
  {
    SettleLeaf(h, d.promise, true, h[p].value, fuel);
  }

  /** A success handler returning a value `x` that is not a promise: the
      child resolves with `x`. */
  lemma PlainResult(h: Heap, p: PromiseId, d: Deferred, f: Handler, x: Value, fuel: nat)
    requires p < |h| && d.promise < |h| && fuel > 0 && !x.Ref?
    requires h[d.promise].successCallbacks == []
    requires f(h[p].value) == Reaction([], Returns(x))
    ensures RunCallback(h, p, PropagateResolution(d, Some(f)), fuel)
            == Run(h[d.promise := Settled(h[d.promise], true, x)], Normal)
  {
    assert RunEffects(h, [], 0, fuel) == Run(h, Normal);
    SettleLeaf(h, d.promise, true, x, fuel);
  }

  /** A success handler returning a promise `q`: nothing is settled; `q` gets
      `then(adopt-resolve, adopt-reject)`, so the child waits for `q`. */
  lemma ThenableResult(h: Heap, p: PromiseId, d: Deferred, f: Handler, q: PromiseId, fuel: nat)
    requires p < |h| && q < |h|
    requires f(h[p].value) == Reaction([], Returns(Ref(q)))
    ensures RunCallback(h, p, PropagateResolution(d, Some(f)), fuel)
            == Run(ThenHeap(h, q, Some(AdoptResolution(d)), Some(AdoptRejection(d))), Normal)
  {
    assert RunEffects(h, [], 0, fuel) == Run(h, Normal);
  }

  /** A handler that throws: the exception escapes and the child is left as it was. */
  lemma RaiseEscapes(h: Heap, p: PromiseId, cb: Callback, e: Value, fuel: nat)
    requires p < |h|
    requires cb.PropagateResolution? ==> cb.success.Some? && cb.success.value(h[p].value) == Reaction([], Raise(e))
    requires cb.PropagateRejection? ==> cb.failure.Some? && cb.failure.value(h[p].value) == Reaction([], Raise(e))
    ensures RunCallback(h, p, cb, fuel) == Run(h, Threw(e))
  {
    assert RunEffects(h, [], 0, fuel) == Run(h, Normal);
  }

  /** The failure path always rejects the child with the parent's value:
      with no handler, or with one that returns anything at all without
      throwing (a returned promise is not unwrapped). */
  lemma RejectionAlwaysRejects(h: Heap, p: PromiseId, d: Deferred, failure: Option<Handler>, fuel: nat)
    requires p < |h| && d.promise < |h| && fuel > 0
    requires h[d.promise].failureCallbacks == []
    requires failure.Some? ==> failure.value(h[p].value).effects == [] && !failure.value(h[p].value).ret.Raise?
    ensures RunCallback(h, p, PropagateRejection(d, failure), fuel)
            == Run(h[d.promise := Settled(h[d.promise], false, h[p].value)], Normal)
  {
    assert RunEffects(h, [], 0, fuel) == Run(h, Normal);
    SettleLeaf(h, d.promise, false, h[p].value, fuel);
  }

  /** The closure flattening registers for success on the returned promise
      `q`: the waiting child `d` resolves with q's value, and the extra child
      `g` of that internal `then` resolves with `undefined`. */
  lemma AdoptResolves(h: Heap, q: PromiseId, g: Deferred, d: Deferred, fuel: nat)
    requires q < |h| && g.promise < |h| && d.promise < |h| && g.promise != d.promise && fuel > 1
    requires h[d.promise].successCallbacks == [] && h[g.promise].successCallbacks == []
    ensures var r := RunCallback(h, q, PropagateResolution(g, Some(AdoptResolution(d))), fuel);
            && r.exit == Normal
            && r.heap == h[d.promise := Settled(h[d.promise], true, h[q].value)]
                          [g.promise := Settled(h[g.promise], true, Undefined)]
  {
    var effects := [Effect(d, true, h[q].value)];
    var h1 := h[d.promise := Settled(h[d.promise], true, h[q].value)];
    SettleLeaf(h, d.promise, true, h[q].value, fuel);
    assert RunEffects(h, effects, 0, fuel) == Run(h1, Normal) by {
      assert RunEffects(h1, effects, 1, fuel) == Run(h1, Normal);
    }
    SettleLeaf(h1, g.promise, true, Undefined, fuel);
  }

  /** The closure flattening registers for failure on `q`: the waiting child
      `d` rejects with q's value, and so does the extra child `g`. */
  lemma AdoptRejects(h: Heap, q: PromiseId, g: Deferred, d: Deferred, fuel: nat)
    requires q < |h| && g.promise < |h| && d.promise < |h| && g.promise != d.promise && d.promise != q && fuel > 1
    requires h[d.promise].failureCallbacks == [] && h[g.promise].failureCallbacks == []
    ensures var r := RunCallback(h, q, PropagateRejection(g, Some(AdoptRejection(d))), fuel);
            && r.exit == Normal
            && r.heap == h[d.promise := Settled(h[d.promise], false, h[q].value)]
                          [g.promise := Settled(h[g.promise], false, h[q].value)]
  {
    var effects := [Effect(d, false, h[q].value)];
    var h1 := h[d.promise := Settled(h[d.promise], false, h[q].value)];
    SettleLeaf(h, d.promise, false, h[q].value, fuel);
    assert RunEffects(h, effects, 0, fuel) == Run(h1, Normal) by {
      assert RunEffects(h1, effects, 1, fuel) == Run(h1, Normal);
    }
    SettleLeaf(h1, g.promise, false, h1[q].value, fuel);
  }
}
