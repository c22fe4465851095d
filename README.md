# oath — a verified model of a tiny synchronous promise engine

`lib/oath.js` is a deferred-value ("promise") library of about a hundred
lines. A *promise* holds a value, a status (waiting, resolved or rejected)
and two ordered callback lists. A *deferred* owns one promise and is the only
thing that changes it: `resolve(data)` / `reject(error)` overwrite value and
status and then run the success (or failure) list in order, synchronously.
`then(success, failure)` allocates a child deferred and pushes one
success-propagation closure and one rejection-propagation closure onto the
parent; `catch(f)` is `then(undefined, f)`; `defer()` makes a fresh deferred;
`promisify(fn)` adapts an error-first callback function so that calling it
returns a promise — always the same one.

This project models that engine in Dafny and proves what it does.

- `promises.dfy` (module `Promises`): the records. Promise objects live in a
  heap (`seq<Promise>`) and are named by their index. The two closures
  `then` builds are the datatype `Callback` (`PropagateResolution`,
  `PropagateRejection`), each holding the child deferred and the optional
  user handler. A user handler is an abstract function from the value it is
  given to a `Reaction`: the `resolve`/`reject` calls it makes, in order, and
  whether it then returns a value or throws. A payload is `undefined`, a
  number, a string, or a reference to a promise (`Ref`), which is stored and
  passed on like any other value.
  `ThenHeap` is the heap after a `then`. `AdoptResolution`/`AdoptRejection`
  are the two internal handlers flattening registers on a returned promise.
- `propagation.dfy` (module `Propagation`): the meaning of `resolve` and
  `reject` — the whole re-entrant cascade — as four mutually recursive
  functions (`SettleRun`, `FireAll`, `RunCallback`, `RunEffects`), each
  proved to only ever append to the heap and to callback lists (`Grows`).
- `engine.dfy` (module `Engine`): the imperative engine, class `Runtime`
  with field `promises`. `Then` pushes onto the parent's lists in place;
  `Resolve`/`Reject` overwrite value and status and run a `while` loop over
  the list captured on entry (`Fire`), calling `Invoke`, which calls back
  into `Resolve`/`Reject`. Each method is proved to produce exactly the heap
  and outcome of the corresponding function. `Promisify` and `CallLifted`
  model `promisify`.
- `laws.dfy` (module `Laws`) and `chains.dfy` (module `Chains`): the
  properties, from firing order to flattening.
- `scenarios.dfy` (module `Scenarios`): short programs against `Runtime`.

Modelling choices:

- **Depth bound.** Every `resolve`/`reject` takes a `fuel` argument, the
  number of nested `resolve`/`reject` calls still allowed. Running out ends
  the cascade with `Overflow`, the analogue of the JavaScript call stack
  overflowing; re-entrant handlers can loop forever, so no bound-free
  termination argument exists.
- **Exceptions.** The source catches nothing. A handler that throws stops
  the remaining callbacks and every enclosing `resolve`/`reject`, and the
  cascade ends with `Threw(e)`; whatever was already done stays done.
- **Flattening** is modelled as the source does it: a real `then` on the
  returned promise, so an extra, unused child promise is allocated.
- **Callbacks read the promise when they run**, not when registered: a
  propagation closure reads `promise.value` at the moment it is called, and
  the rejection path reads it again after the failure handler has run.
- **Status sentinels** are an enumeration; `instanceof Promise` is a handler
  result of the form `Returns(Ref(q))`; truthiness of `err` in `promisify`
  is a boolean flag.
- **`Dangling`** ends a cascade when a handler names a promise id that was
  never allocated. It has no counterpart in the source, where references
  always point at objects.

One behaviour of the code differs from what a promise library is usually
meant to do, and the model follows the code:

- A continuation registered on a promise that is already settled is expected
  to run at once, so that a handler which resolves a fresh deferred and
  returns its promise makes the chained child resolve with that value. In
  this code `then` only pushes onto the lists and nothing fires until the
  promise is settled again, so the child stays waiting
  (`Chains.SettledReturnLeavesChildWaiting`, `Scenarios.EagerInnerPromise`).

## Model

| member | source | states |
|---|---|---|
| `Promises.Settled` | lib/oath.js:92-93 | `resolve`/`reject` overwrite the value with the payload and the status with resolved (for `resolve`) or rejected (for `reject`), never waiting, and leave both callback lists as they were |
| `Promises.AdoptResolution` | lib/oath.js:35-37 | the internal success closure of flattening makes exactly one call, resolving the waiting child with the returned promise's value, and returns `undefined` |
| `Promises.AdoptRejection` | lib/oath.js:38-40 | the internal failure closure of flattening makes exactly one call, rejecting the waiting child with the returned promise's value, and returns `undefined` |
| `Promises.ThenHeap` | lib/oath.js:25-62 | `then` allocates one blank waiting child at the end of the heap, appends exactly one success propagation and one rejection propagation (both for that child) to the parent, keeps the parent's value and status, and changes no other promise |
| `Propagation.SettleRun` | lib/oath.js:91-113 | resolve/reject only ever add promises and append to callback lists, never remove or reorder a callback |
| `Propagation.FireAll` | lib/oath.js:94-96 | the firing loop only appends to the heap and to callback lists |
| `Propagation.RunCallback` | lib/oath.js:29-58 | a propagation closure only appends to the heap and to callback lists |
| `Propagation.RunEffects` | lib/oath.js:31 | the resolve/reject calls a handler makes only append to the heap and to callback lists |
| `Engine.LiftedRun` | lib/oath.js:124-132 | a promisified call only appends; a function that never calls back changes nothing |
| `Engine.Runtime.NewPromise` | lib/oath.js:13-18 | `new Promise(value, status)` allocates a new promise with that value, the given status or waiting when none is given, and two empty callback lists; older promises are unchanged |
| `Engine.Runtime.NewDeferred` | lib/oath.js:82-84 | a deferred wraps the given promise without allocating, or else a freshly allocated blank waiting promise |
| `Engine.Runtime.Defer` | lib/oath.js:118-120 | `defer()` returns a deferred around a fresh waiting promise with empty lists |
| `Engine.Runtime.Then` | lib/oath.js:25-62 | the in-place pushes of `then` give exactly the heap `ThenHeap` describes; the child is the new, distinct promise |
| `Engine.Runtime.Catch` | lib/oath.js:70-75 | `catch(f)` is exactly `then(undefined, f)` |
| `Engine.Runtime.Resolve` | lib/oath.js:91-101 | `resolve` produces exactly the heap and outcome of `SettleRun` and, when no exception escaped, returns the promise's value as it is after every callback ran |
| `Engine.Runtime.Reject` | lib/oath.js:107-113 | `reject` produces exactly the heap and outcome of `SettleRun` on the failure list |
| `Engine.Runtime.Fire` | lib/oath.js:94-96 | the `forEach` loop over the list captured on entry computes `FireAll`; callbacks appended meanwhile are not visited |
| `Engine.Runtime.Invoke` | lib/oath.js:29-58 | running one propagation closure in place computes `RunCallback` |
| `Engine.Runtime.Perform` | lib/oath.js:31 | running a handler's resolve/reject calls in place computes `RunEffects` |
| `Engine.Runtime.Promisify` | lib/oath.js:122-124 | `promisify` allocates its one deferred when it is called, not per invocation |
| `Engine.Runtime.CallLifted` | lib/oath.js:124-132 | an invocation settles the shared deferred as `LiftedRun` says and returns the shared promise exactly when no exception escaped from the settling |
| `Laws.FireSplit` | lib/oath.js:94-96 | callbacks fire in insertion order: firing `a + b` is firing `a`, then `b` on the resulting heap unless an exception stopped `a` |
| `Laws.FireShift` | lib/oath.js:94-96 | firing the tail of a list from its own start is the same as continuing the whole list there |
| `Laws.FireSingle` | lib/oath.js:94-96 | a one-callback list runs exactly that callback |
| `Laws.SettleLeaf` | lib/oath.js:91-113 | with nothing registered for the outcome, resolve/reject only overwrite value and status and end normally |
| `Laws.NoSettleOnceGuard` | lib/oath.js:91-93 | a second resolve or reject overwrites the first, whichever outcomes they are |
| `Laws.PassThrough` | lib/oath.js:46-48 | with no success handler the child resolves with the parent's current value |
| `Laws.PlainResult` | lib/oath.js:42-45 | a success handler returning `x`, not a promise, resolves the child with `x` |
| `Laws.ThenableResult` | lib/oath.js:32-41 | a success handler returning promise `q` settles nothing: it is exactly `q.then(adopt-resolve, adopt-reject)` |
| `Laws.RaiseEscapes` | lib/oath.js:29-58 | a handler that throws ends the cascade with that exception and leaves the child untouched |
| `Laws.RejectionAlwaysRejects` | lib/oath.js:53-58 | the failure path rejects the child with the parent's value whether or not there is a handler and whatever it returns |
| `Laws.AdoptResolves` | lib/oath.js:34-37 | when the returned promise resolves, the waiting child resolves with its value and the internal extra child with `undefined` |
| `Laws.AdoptRejects` | lib/oath.js:38-40 | when the returned promise rejects, the waiting child and the extra child both reject with its value |
| `Chains.ResolveThroughThen` | lib/oath.js:25-62 | `then` then `resolve(v)`: the child resolves with `v` (no handler) or with the handler's plain result, the parent holds `v` resolved, no other promise changes |
| `Chains.RejectThroughThen` | lib/oath.js:53-58 | `then` then `reject(e)`: the child is rejected with `e` for any non-throwing failure handler or none, no other promise changes |
| `Chains.PromisePayloadNotUnwrapped` | lib/oath.js:47 | a promise given to `resolve`/`reject` as the payload reaches a pass-through child as that reference, with the parent's outcome, and the referenced promise is untouched |
| `Chains.CatchNeverRecovers` | lib/oath.js:70-75 | a `catch` child of a rejected parent is rejected with the parent's error, whatever the handler returns |
| `Chains.Flattening` | lib/oath.js:32-41 | a child whose handler returned promise `q` is still waiting after the parent resolves, then takes `q`'s value and outcome when `q` resolves or rejects |
| `Chains.SettledReturnLeavesChildWaiting` | lib/oath.js:32-41 | a handler that resolves `w` and then returns it leaves its child waiting, because `then` on a settled promise only registers |
| `Chains.FanOutInOrder` | lib/oath.js:94-96 | two `then`s on one promise give two independent children, each with its own handler's result, and the handlers run in registration order |
| `Chains.OneEffectThenPlain` | lib/oath.js:29-45 | a handler that resolves another promise and returns a plain value does both, in that order |
| `Chains.NestedResolutionCompletes` | lib/oath.js:91-101 | a handler resolving an unrelated deferred completes that resolution, its child included, before the outer `resolve` returns |
| `Chains.SecondSettleRefires` | lib/oath.js:91-113 | settling a parent again re-fires its lists: a pass-through child follows it to the new value and outcome |
| `Chains.LiftedSettlesSharedPromise` | lib/oath.js:122-133 | a truthy error rejects the shared promise with the error, otherwise it resolves with the value; a second call re-settles the same promise |
| `Scenarios.IncrementChain` | lib/oath.js:25-62 | `defer`, `then(x => x + 1)`, `resolve(5)` leaves the child resolved with 6 |
| `Scenarios.RejectionThroughCatch` | lib/oath.js:70-75 | `then(x => x + 1).catch(e => e)` on a rejected promise leaves both children rejected with the error |
| `Scenarios.EagerInnerPromise` | lib/oath.js:32-41 | a handler that resolves its own fresh deferred and returns it leaves the chained child waiting |
| `Scenarios.SharedLiftedPromise` | lib/oath.js:122-133 | two calls of a promisified function return the same promise, which shows the second call's outcome |

## Left out

- Arbitrary JavaScript in handlers and in the function given to `promisify`: handlers are abstract functions returning a scripted `Reaction`; they can call `resolve`/`reject`, return a value or a promise, or throw, but cannot allocate promises or call `then` themselves. A handler that builds and returns a new promise is modelled with a promise allocated beforehand.
- The function given to `promisify` is reduced to calling its callback once during the call or not at all (`NodeCall`); later, asynchronous callback calls are ordinary `Resolve`/`Reject` calls on the shared deferred, and a throwing `fnc` is not modelled.
- Termination of re-entrant cascades is bounded by the `fuel` depth; with too little fuel a cascade ends with `Overflow` where the real engine might still finish.
- Payloads are `undefined`, numbers, strings and promise references only; other objects (arrays, plain objects, functions, `null`, booleans) are not modelled.
- JavaScript numbers are modelled as unbounded integers: fractions, `NaN`, infinities and the rounding of IEEE 754 doubles are not modelled.
- JavaScript truthiness of `err` (a boolean flag instead), `undefined + 1` being NaN, the object identity of the status sentinels, `instanceof`, `bind(this)`, prototype and `constructor` plumbing, and the module exports.
- The commented-out code in the source (a `reduce` in `resolve`, an alternative `catch`).
- Laws about chains are stated for parents with nothing else registered for the outcome and for handlers without side effects unless a law says otherwise; with arbitrary other callbacks present, re-entrant code can change any promise, and only the append-only and firing-order laws hold in general.
