# A Dafny model of a Swift promise library

This project models the core of a small Swift promise library and proves properties of it. The
library has two parts, and the model follows them.

- **`Promise<T>`** (Promise/Promise.swift). A promise is pending, fulfilled with an optional value,
  or rejected with an `NSError`. It also keeps a list of `(queue, handler)` pairs.
  - `onResolve` and `onReject` settle it only while it is pending. Settling dispatches every stored
    handler to its queue, in order, and empties the list.
  - `then` (three overloads), `catch` and `finally` return a child promise. When the parent is
    already settled, the child is settled by the block dispatched to the queue `q`, which the model
    runs inside the operator. When the parent is pending, a handler is appended instead, and it
    applies the same rule once the parent settles.
- **`all` and `any`** (Promise/Promise.all.swift). Each one hands every input promise callbacks
  that share three things: an index-aligned `results` array, a counter `x`, and a deferred
  aggregate promise.

The model is split into five modules.

- `PromiseState` (promise_state.dfy) is pure.
  - The state datatype and its accessors, and the "only a pending promise settles" rule.
  - The result a continuation body can return (`Returned`: a value, `Void`, nil or an `NSError`).
    This sum type stands for the runtime checks `is Void` and `as? NSError`. `voidToNil` is defined
    on it.
  - Each chaining operator's rule, as a function from the parent's state (and the body) to the body
    invocations it makes and the child's outcome.
  - Lemmas about chains built from these rules.
- `Promises` (promise.dfy) has a `Promise<T>` class with the source's `state` and `handlers` fields.
  - Dispatch queues are an `Executor` object: a FIFO of submitted `(queue, handler)` tasks.
  - Handlers are data tags (queue, handler id, which continuation), not closures.
  - Each chaining operator is a method. It builds the child and applies the rule at once, or it
    appends a handler tag.
  - Running a stored handler is a `Run…` method on the parent that is given the child it settles.
    A caller calls it once the tag has been submitted.
  - The twostate predicate `Transition` says what one `onResolve`/`onReject` does to a promise and
    to the executor. Every settling method ensures it.
- `FanIn` (fan_in.dfy) gives the bookkeeping of `all` and `any` as pure functions of the order in
  which the inputs settle: a sequence of events, one per settled input. Its lemmas hold for every
  settlement order.
- `Combinators` (combinators.dfy) holds the state one `all` or `any` call shares, as a class: the
  `results` array, the counter and the aggregate promise.
  - Its `OnFulfilled(i, v)` and `OnRejected(i, e)` are the `then` and `catch` bodies registered on
    input `i`. Callers may call them in any order, once per input.
  - `Valid()` keeps the object equal to the `FanIn` run over the events seen so far, which a ghost
    `history` records.
- `Scenarios` (scenarios.dfy) builds the chains of PromiseTests/PromiseTests.swift, plus a few runs
  of `all` and `any`, and states the outcome each one reaches.

`any` is meant to succeed when at least one input succeeds, but the code follows a narrower
rule: the final scan asks for a slot with a non-nil `object`, and a fulfilment with nil stores
none. The model of the code (`FanIn.AnyRun`, the `Combinators.AnyAggregator` class) follows the
code; the corrected rule is modelled beside it and compared with it under "## Findings".

How the `then { … -> Void in … }` closures in Promise.all.swift and in the tests resolve is a
modelling choice. The `(T?) -> Void` overload of `then` leaves `U` unconstrained when its result is
discarded. So these closures are taken to resolve to the value-returning overload with `U = Void`,
and their bodies run. The `(T?) -> Void` overload itself, modelled as `ThenVoid`, never runs its
body, exactly as written.

## Model

| member | source | states |
|---|---|---|
| PromiseState.State.Value | Promise/Promise.swift:56-61 | A non-nil `value` comes only from a fulfilled state, and it is that state's stored value |
| PromiseState.ExactlyOneStatus | Promise/Promise.swift:37-61 | Exactly one of the accessors `IsPending`, `IsFulfilled` and `IsRejected` (`pending`, `fulfilled`, `rejected`) holds for any state; `value` is non-nil only when fulfilled, and then it is the stored value |
| PromiseState.FirstSettlementWins | Promise/Promise.swift:132-148 | `Settle`, the state change of `onResolve`/`onReject`, takes effect only on a pending state; once settled, any later resolve or reject leaves the state as it is |
| PromiseState.OnlyFirstSettles | Promise/Promise.swift:74-76 | `SettleAll` applies a series of resolve/reject calls in order; from a pending promise only the first takes effect |
| PromiseState.VoidToNil | Promise/Promise.swift:152-162 | A Void result becomes nil, every other result passes unchanged, and the result is never Void |
| PromiseState.VoidToNilIdempotent | Promise/Promise.swift:152-162 | Applying `voidToNil` twice is the same as applying it once |
| PromiseState.Resolution | Promise/Promise.swift:199-207 | A body result settles the child: rejected exactly for an NSError (with that error), fulfilled with the value exactly for a non-nil non-Void value, and never pending |
| PromiseState.FinallyRuns | Promise/Promise.swift:357-365 | Attached to a settled promise, `finally` runs its body once when fulfilled and twice when rejected |
| PromiseState.RejectionSkipsThen | Promise/Promise.swift:164-243 | Under each `then` overload, a rejected parent rejects the child with the same error and invokes no body |
| PromiseState.FulfilledRunsBody | Promise/Promise.swift:164-210 | A fulfilled parent invokes the value-returning body exactly once, on its value. An NSError result rejects the child, Void or nil fulfils it with nil, and any other value fulfils it with that value. The Void overload fulfils with nil and invokes nothing |
| PromiseState.ThenVoidRule | Promise/Promise.swift:164-193 | The `(T?) -> Void` rule invokes no body and settles the child: rejected with the parent's error exactly when the parent is rejected, otherwise fulfilled with nil |
| PromiseState.ThenValueRule | Promise/Promise.swift:195-236 | The value-returning rule invokes the body exactly when the parent is fulfilled, once, on its value, and the child takes the `Resolution` of its result; a rejected parent's error is forwarded. The child is never left pending |
| PromiseState.FlattenRule | Promise/Promise.swift:238-321 | The flattening rule invokes the body exactly when the parent is fulfilled, once, on its value, and the child takes the state the returned promise reaches; a rejected parent's error is forwarded |
| PromiseState.CatchRule | Promise/Promise.swift:323-354 | The child takes the parent's outcome, and the body is invoked exactly when the parent is rejected, once, with its error |
| PromiseState.FinallyRule | Promise/Promise.swift:356-388 | The child takes the parent's outcome, and the argument-less body is invoked `FinallyRuns` times: once for a fulfilled parent, twice for a rejected one |
| PromiseState.ObserversForward | Promise/Promise.swift:323-388 | `catch` and `finally` give the child the parent's outcome. `catch` invokes its body exactly for a rejection, with that error; `finally` invokes its body once for a fulfilled parent and twice for a rejected one |
| PromiseState.RejectionTravelsChain | Promise/Promise.swift:164-388 | Along a chain (`Step`, `ChainOutcome`, `ChainCalls`), a rejection reaches the end unchanged (`catch` does not recover). The calls made on the way are exactly `RejectedCalls`, link by link in order: each `catch` body once, receiving that error, each `finally` body twice, and no `then` body; `Catches` + 2 × `Finallies` calls in all |
| PromiseState.RejectionReachesCatch | Promise/Promise.swift:164-354 | A rejection that passes any number of `then` links reaches the `catch` after them: that `catch` body is the only one run, it receives the error, and the chain stays rejected (with `ThensRunNothing`) |
| PromiseState.ObserverTransparent | Promise/Promise.swift:323-388 | Inserting a `catch` or a `finally` anywhere in a chain does not change `ChainOutcome` at its end |
| PromiseState.PendingChainWaits | Promise/Promise.swift:164-388 | A chain whose head never settles never settles at its end, and the only bodies it runs are its `finally` bodies, once each on attaching (Promise/Promise.swift:358) |
| Promises.TasksOfInOrder | Promise/Promise.swift:63-68 | `TasksOf`, the tasks submitted for a handler list, holds one task per handler, in registration order, each on its handler's queue |
| Promises.TasksOfAppend | Promise/Promise.swift:63-68 | Submitting a list extended by one handler submits that handler's task after the others |
| Promises.Executor.Submit | Promise/Promise.swift:65 | `dispatch_async` appends one task to the FIFO |
| Promises.Promise.Empty | Promise/Promise.swift:70-72 | `init()` is fulfilled with nil, not pending, with no handlers |
| Promises.Promise.WithValue | Promise/Promise.swift:85-87 | `init(value:)` is fulfilled with the value, with no handlers |
| Promises.Promise.WithError | Promise/Promise.swift:89-91 | `init(error:)` is rejected with the error, with no handlers |
| Promises.Promise.Deferred | Promise/Promise.swift:78-83 | The promise `defer()` returns starts pending with no handlers; `OnResolve`/`OnReject` are its resolve and reject |
| Promises.Promise.WithBody | Promise/Promise.swift:74-76 | `init(body)` with a body that resolves or rejects before it returns: the state is the first of its settlements, and nothing is submitted |
| Promises.Promise.CallHandlers | Promise/Promise.swift:63-68 | Every stored handler is submitted exactly once, in order, to its recorded queue, and the list ends empty |
| Promises.Promise.OnReject | Promise/Promise.swift:132-139 | `Transition`: a pending promise becomes rejected, submits its handlers in order and forgets them; a settled promise, its handlers and the executor are unchanged |
| Promises.Promise.OnResolve | Promise/Promise.swift:141-148 | `Transition`: a pending promise becomes fulfilled, submits its handlers in order and forgets them; a settled promise, its handlers and the executor are unchanged |
| Promises.Promise.SettleWith | Promise/Promise.swift:132-148 | A `resolve(v)` or `reject(e)` call makes the same transition as `OnResolve`/`OnReject` |
| Promises.Promise.Subscribe | Promise/Promise.swift:175-371 | Registering appends one handler to the end of the list, as each `handlers.append` does (Promise/Promise.swift:175, :212, :256, :276, :297, :335, :369) |
| Promises.Promise.ThenVoid | Promise/Promise.swift:164-193 | A settled parent settles the fresh child by the `(T?) -> Void` rule (rejection forwarded, fulfilment gives nil, body never invoked); a pending parent gets one handler appended and the child stays pending |
| Promises.Promise.RunThenVoid | Promise/Promise.swift:176-186 | The handler settles the child by the same rule once the parent has settled |
| Promises.Promise.ThenValue | Promise/Promise.swift:195-236 | A settled parent settles the fresh child by the value-returning rule and reports the body invocations; a pending parent gets one handler appended and invokes nothing |
| Promises.Promise.RunThenValue | Promise/Promise.swift:215-229 | The handler applies the same rule once the parent has settled |
| Promises.Promise.ForwardTo | Promise/Promise.swift:247-272 | A settled inner promise settles the child with its own outcome; a pending one gets a forwarding handler, and the child is left as it is |
| Promises.Promise.RunForward | Promise/Promise.swift:299-309 | The forwarding handler gives the child the inner promise's outcome |
| Promises.Promise.ThenPromise | Promise/Promise.swift:238-321 | A rejected parent rejects the child. A fulfilled parent keeps its handlers and invokes the body once; the child takes the returned promise's outcome if it is settled, or waits on a handler registered on it. A pending parent gets one handler |
| Promises.Promise.RunThenPromise | Promise/Promise.swift:276-316 | The parent's handler applies the same flattening rule once the parent has settled |
| Promises.Promise.Catch | Promise/Promise.swift:323-354 | A settled parent settles the fresh child with its own outcome and invokes the body exactly for a rejection, with its error; a pending parent gets one handler |
| Promises.Promise.RunCatch | Promise/Promise.swift:335-349 | The handler applies the same rule once the parent has settled |
| Promises.Promise.Finally | Promise/Promise.swift:356-388 | The child takes the parent's outcome. The body runs once for a fulfilled parent, twice for a rejected one, and once now for a pending one, which gets one handler |
| Promises.Promise.RunFinally | Promise/Promise.swift:369-382 | The handler runs the body once more and forwards the parent's outcome |
| FanIn.Start | Promise/Promise.all.swift:16-27 | `n` blank slots and a zero counter; the aggregate is settled at the start exactly when `n` is 0, and then fulfilled with an empty array |
| FanIn.FirstRejection | Promise/Promise.all.swift:86 | The error of a rejection event with no rejection before it |
| FanIn.AllStep | Promise/Promise.all.swift:77-86 | One callback of `all` keeps the number of slots and writes no slot but its input's |
| FanIn.AllRun | Promise/Promise.all.swift:63-90 | The state of `all` after any sequence of settlements keeps one slot per input |
| FanIn.AnyStep | Promise/Promise.all.swift:29-52 | One callback of `any` keeps the number of slots, writes no slot but its input's, and counts once |
| FanIn.AnyRun | Promise/Promise.all.swift:15-57 | The state of `any` after any sequence of settlements keeps one slot per input |
| FanIn.HistoryBound | Promise/Promise.all.swift:26 | At most `n` inputs can have settled |
| FanIn.Complete | Promise/Promise.all.swift:26 | Once `n` events have been seen, every input has settled |
| FanIn.AllCounter | Promise/Promise.all.swift:82 | The counter of `all` is `Fulfilments`, the number of fulfilments, whatever the order |
| FanIn.AllSlots | Promise/Promise.all.swift:78-80 | Slot `i` of `all` is written only by input `i`: it is `AllSlot` of input `i`'s event (its value, nil included, for a fulfilment; blank for a rejection), and blank while input `i` is unsettled |
| FanIn.AllAggregate | Promise/Promise.all.swift:77-86 | With no rejection the aggregate waits until all `n` have settled and then holds the results; any rejection rejects it with the first rejection's error, whatever comes later |
| FanIn.NoRejectionCounts | Promise/Promise.all.swift:82 | Without rejections, every settled input was counted |
| FanIn.FulfilmentsBelowLength | Promise/Promise.all.swift:82-86 | A rejection is never counted, so the counter of `all` stays below `n` after it |
| FanIn.AllFulfilled | Promise/Promise.all.swift:77-84 | Once all `n` inputs have fulfilled, the aggregate is fulfilled with the results, and slot `i` holds input `i`'s value |
| FanIn.AnyCounter | Promise/Promise.all.swift:35-43 | Every settled input of `any` is counted exactly once, so `x <= n` |
| FanIn.AnySlots | Promise/Promise.all.swift:29-41 | Slot `i` of `any` is `AnySlot` of input `i`'s event: its non-nil value with no error, or its rejection's error with no value, or blank for a nil fulfilment or while unsettled |
| FanIn.AnyAggregate | Promise/Promise.all.swift:29-52 | `any` is pending exactly until all `n` have settled. A last fulfilment resolves it with the results; a last rejection resolves it if a slot has a value and otherwise rejects it with that error |
| FanIn.AnyHasObject | Promise/Promise.all.swift:29-41 | A slot has a value exactly when some input fulfilled with a non-nil value |
| FanIn.AnyOutcome | Promise/Promise.all.swift:35-51 | With all `n` settled: `any` is fulfilled, with the results, exactly when the last settler fulfilled or some input fulfilled with a non-nil value; otherwise it is rejected with the last settler's error |
| FanIn.IntendedAnyStep | Promise/Promise.all.swift:39-51 | The corrected `catch` callback of `any` leaves slots and counter as `AnyStep` does; only the final scan differs, asking `SomeSuccess` (a slot without error) |
| FanIn.IntendedAnyRun | Promise/Promise.all.swift:15-57 | The state of the corrected `any` after any sequence of settlements keeps one slot per input |
| FanIn.IntendedAnyAgrees | Promise/Promise.all.swift:29-43 | The correction changes only the verdict: slots, counter, and the moment the aggregate settles are those of `any` as written |
| FanIn.SuccessRecorded | Promise/Promise.all.swift:29-41 | Once all inputs have settled, some slot has no error exactly when some input fulfilled, nil included |
| FanIn.IntendedAnyOutcome | Promise/Promise.all.swift:15-57 | With all `n` settled, the corrected `any` is fulfilled, with the results, exactly when at least one input fulfilled; otherwise it is rejected with the last error |
| FanIn.AnyNilFulfilmentLost | Promise/Promise.all.swift:29-51 | Input 0 fulfilling with nil and then input 1 rejecting makes `any` as written rejected, and the corrected `any` fulfilled |
| Combinators.ScanForObject | Promise/Promise.all.swift:44-49 | The scan finds a slot with a non-nil `object` exactly when one exists |
| Combinators.AllAggregator.constructor | Promise/Promise.all.swift:63-75 | `all` over `n` inputs starts with `n` blank slots, a zero counter and a deferred aggregate; with no inputs, the aggregate is already fulfilled with an empty array |
| Combinators.AllAggregator.OnFulfilled | Promise/Promise.all.swift:77-85 | Stores a non-nil value in slot `i`, counts once, and resolves the aggregate with the results on the `n`th fulfilment, submitting its handlers |
| Combinators.AllAggregator.OnRejected | Promise/Promise.all.swift:86 | Rejects the aggregate with the error (no effect once it is settled) |
| Combinators.AnyAggregator.constructor | Promise/Promise.all.swift:15-27 | `any` over `n` inputs starts with `n` blank slots, a zero counter and a deferred aggregate; with no inputs, it is already fulfilled with an empty array |
| Combinators.AnyAggregator.OnFulfilled | Promise/Promise.all.swift:29-38 | A non-nil value fills slot `i` and clears its error; the settlement is counted, and the `n`th settlement resolves the aggregate with the results |
| Combinators.AnyAggregator.OnRejected | Promise/Promise.all.swift:39-53 | Slot `i` gets the error and loses its value; the settlement is counted; the `n`th resolves the aggregate if a slot has a value and rejects it with this error otherwise |
| Combinators.AllAggregatorOutcome | Promise/Promise.all.swift:63-90 | For callbacks run in any order, the object stays `Valid` (equal to `AllRun` of its history): the counter counts fulfilments, and the aggregate is fulfilled, with the results, exactly when all `n` fulfilled. A rejection rejects it with the first rejection's error |
| Combinators.AnyAggregatorOutcome | Promise/Promise.all.swift:15-57 | For callbacks run in any order, the object stays `Valid` (equal to `AnyRun` of its history): the counter counts settlements, and the aggregate is pending exactly while some input is unsettled. It then is fulfilled, with the results, exactly when the last settler fulfilled or some input fulfilled with a value; otherwise it is rejected with the last error |
| Scenarios.DeferredDoubling | Promise/Promise.swift:195-236 | A `then` attached while pending is submitted once on resolution with 25; its handler gives 50 |
| Scenarios.SettleTwice | Promise/Promise.swift:132-148 | A settled promise ignores later resolve and reject calls |
| Scenarios.EmptyInitChain | PromiseTests/PromiseTests.swift:140-163 | `Promise()` passes nil to the first body, 24 and "Hello" flow down the chain, and the Void result ends in nil |
| Scenarios.CatchChain | PromiseTests/PromiseTests.swift:72-102 | A body returning an NSError rejects the chain, the next body is skipped, and `catch` receives the error with code 123 and stays rejected |
| Scenarios.DeferChain | PromiseTests/PromiseTests.swift:165-193 | A flattened child waits on a pending inner promise and is settled by the forwarding handler, which then submits the last handler on the main queue; "Hello" reaches the last body |
| Scenarios.FinallyCounts | Promise/Promise.swift:356-388 | `finally` runs twice on a rejected promise and twice in all on a pending one that is rejected, and forwards the error |
| Scenarios.AllOfTwo | Promise/Promise.all.swift:77-84 | `all` of two inputs fulfilled in reverse order waits for the second, then holds both values in their slots |
| Scenarios.AllRejected | Promise/Promise.all.swift:86 | A rejection rejects `all` at once, and a later fulfilment leaves it rejected |
| Scenarios.AnyValueWins | Promise/Promise.all.swift:43-49 | `any` is fulfilled when a value was recorded, even though the last input rejected |
| Scenarios.AnyNilLoses | Promise/Promise.all.swift:29-51 | `any` is rejected when the only fulfilment was nil and the last input rejected |
| Scenarios.EmptyCombinators | Promise/Promise.all.swift:64-67 | `all([])` and `any([])` are fulfilled with an empty array from the start |

## Findings

| source | as written | input that shows it | evidently intended | confidence | as-written member | corrected member |
|---|---|---|---|---|---|---|
| Promise/Promise.all.swift:44-51 | the last callback of `any`, a rejection, resolves only if some slot has a non-nil `object`; a fulfilment with nil never sets `object` (line 30) | input 0 fulfils with nil, then input 1 rejects: the aggregate is rejected though an input succeeded | `any` succeeds when at least one input fulfilled, nil included, e.g. by testing `result.error == nil` | medium, not executed | FanIn.AnyNilFulfilmentLost | FanIn.IntendedAnyOutcome |

The corrected rule lives in `FanIn.IntendedAnyStep`/`IntendedAnyRun`. The `Combinators` classes and
the scenarios keep the behaviour of the code as written, since they model that code.

## Left out

- Grand Central Dispatch is not modelled: the queues, `dispatch_async`, and `dispatch_promise`'s extra asynchronous hop (Promise/Promise.swift:9-30).
  - Each chaining operator's dispatched block runs inside the operator's method.
  - Submitted handlers are recorded in the executor's FIFO, and they run only when a caller invokes the matching `Run…` method.
  - No scheduling order between queues is modelled.
- Locking (`objc_sync_enter`/`objc_sync_exit`) and real concurrency are left out. The code reads `state` without the lock before taking it to append a handler. A resolution in between can lose that handler. A sequential model cannot express this race.
- `abort()` in a handler that finds its promise pending is not modelled. It becomes the precondition `!state.IsPending()` on each `Run…` method.
- The public `then`/`thenOnMain`, `catch`/`catchOnMain` and `finally`/`finallyOnMain` wrappers are not separate members. They only choose the queue, which is the `q` parameter.
- Swift overload resolution between the `-> Void` and `-> U` overloads is not modelled. The choice made for the closures of `all`/`any` and of the tests is described above.
- Promises.Promise.WithBody: covers only bodies that settle before they return. A body that keeps `resolve`/`reject` for later is `Deferred` followed by `OnResolve`/`OnReject`. A body that does both is not modelled.
- The laziness of `@autoclosure` in `Fulfilled` is not modelled. A value is stored.
- `voidToNil` applied to the parent's stored value is the identity in the model. A stored value is an `Option<T>`, never `Void`.
- `NSError` is reduced to a domain and a code, compared by value. `userInfo` is dropped.
- PromiseState.Resolution: a body that returns an NSError must be written `ErrorResult(e)`. With `U = Error`, `Val(e)` fulfils the child, whereas `result as? NSError` (Promise/Promise.swift:204, :222) would reject it; the type `Returned` does not rule that form out.
- Promises.Handler: a handler tag records its queue, its id and which continuation it is, not the child or the body it settles. Pairing a submitted tag with the right `Run…` call, child and body is left to the caller, so the model does not stop a handler from being run with the wrong child.
- The definition of `PromiseResult` is not part of this model. It is a record of two options, both nil when made. Its `object` field is spelled `obj`, because `object` is a reserved word in Dafny.
- The registration loop of `all`/`any` (`promise.then { … }` / `promise.catch { … }` on each input) is not modelled as promise chaining.
  - `OnFulfilled`/`OnRejected` stand for the callback bodies.
  - The children those registrations create are not represented.
  - The ghost `history` stands in for the order in which the inputs settle.
- Promises.Promise.ThenPromise: requires the promise the body returns to be allocated.
- Promises.Promise.RunThenPromise: requires the returned promise to be allocated and to differ from the child. In Swift the child is created inside `then` and cannot be returned by the body.
- Mutual aliasing of parent, child and inner promise is excluded in the same way.
- The variadic `all(_:)`/`any(_:)` only forward to the array forms and are not modelled separately.
- The test harness (XCTest expectations, timeouts, thread logging) is out of scope. The scenarios state the tests' assertions as postconditions.
