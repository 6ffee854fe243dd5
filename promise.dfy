/** The Promise class of Promise/Promise.swift: a state, a list of (queue, handler) pairs, the
    single-assignment `onResolve`/`onReject`, and the chaining operators. Dispatch queues are an
    explicit FIFO of submitted (queue, handler) tasks; handlers are tags naming the continuation
    they stand for, and running a handler is a method that is given the child it settles. */
module Promises {
  import opened PromiseState

  /** A dispatch queue, by identity. */
  type QueueId = nat

  /** The main queue, and the library's serial background queue `promiseQueue`. */
  const MainQueue: QueueId := 0
  const BackgroundQueue: QueueId := 1

  /** The identity of one handler closure. */
  type HandlerId = nat

  /** Which continuation a stored handler stands for. */
  datatype Continuation =
    | AfterThenVoid     // the handler of the `(T?) -> Void` then
    | AfterThenValue    // the handler of the `(T?) -> U` then
    | AfterThenPromise  // the handler of the `(T?) -> Promise<U>` then, on the parent
    | AfterInner        // the handler that forwards an inner promise to the child
    | AfterCatch
    | AfterFinally

  /** One entry of `handlers`: the queue it was registered for and the closure. */
  datatype Handler = Handler(queue: QueueId, id: HandlerId, kind: Continuation)

  /** A unit of work submitted with `dispatch_async`. */
  datatype Task = Task(queue: QueueId, handler: HandlerId)

  function TaskOf(h: Handler): Task {
    Task(h.queue, h.id)
  }

  /** The tasks `callHandlers` submits for a list of handlers, one per handler, in order. */
  function TasksOf(hs: seq<Handler>): seq<Task>
    decreases |hs|
  {
    if hs == [] then [] else [TaskOf(hs[0])] + TasksOf(hs[1..])
  }

  /** Every handler is submitted exactly once, in registration order, to its recorded queue. */
  lemma {:induction false} TasksOfInOrder(hs: seq<Handler>)
    ensures |TasksOf(hs)| == |hs|
    ensures forall k :: 0 <= k < |hs| ==> TasksOf(hs)[k] == Task(hs[k].queue, hs[k].id)
    decreases |hs|
  {
    if hs != [] {
      TasksOfInOrder(hs[1..]);
      forall k | 0 <= k < |hs|
        ensures TasksOf(hs)[k] == Task(hs[k].queue, hs[k].id)
      {
        if k > 0 {
          assert TasksOf(hs)[k] == TasksOf(hs[1..])[k - 1];
        }
      }
    }
  }

  lemma {:induction false} TasksOfAppend(hs: seq<Handler>, h: Handler)
    ensures TasksOf(hs + [h]) == TasksOf(hs) + [TaskOf(h)]
    decreases |hs|
  {
    if hs == [] {
      assert [h][1..] == [];
    } else {
      assert (hs + [h])[1..] == hs[1..] + [h];
      TasksOfAppend(hs[1..], h);
    }
  }

  /** The dispatch queues, seen as one FIFO of submitted tasks. Running them is not modelled. */
  class Executor {
    var tasks: seq<Task>

    constructor ()
      ensures tasks == []
    {
      tasks := [];
    }

    /** `dispatch_async(queue, handler)`. */
    method Submit(t: Task)
      modifies this
      ensures tasks == old(tasks) + [t]
    {
      tasks := tasks + [t];
    }
  }

  /** What one call of `onResolve`/`onReject` does to promise `p`: a pending promise takes
      `outcome`, submits every handler to its queue in order and forgets them; a settled promise,
      its handlers and the executor are left as they were. */
  twostate predicate Transition<T>(p: Promise<T>, ex: Executor, new outcome: State<T>)
    reads p, ex
  {
    && p.state == Settle(old(p.state), outcome)
    && (if old(p.state).IsPending()
        then p.handlers == [] && ex.tasks == old(ex.tasks) + TasksOf(old(p.handlers))
        else p.handlers == old(p.handlers) && ex.tasks == old(ex.tasks))
  }

  class Promise<T> {
    var handlers: seq<Handler>
    var state: State<T>

    /** `init()`: a promise fulfilled with nil, not a pending one. */
    constructor Empty()
      ensures state == Fulfilled(None) && handlers == []
    {
      handlers := [];
      state := Fulfilled(None);
    }

    /** `init(value:)`. */
    constructor WithValue(value: Option<T>)
      ensures state == Fulfilled(value) && handlers == []
    {
      handlers := [];
      state := Fulfilled(value);
    }

    /** `init(error:)`. */
    constructor WithError(error: Error)
      ensures state == Rejected(error) && handlers == []
    {
      handlers := [];
      state := Rejected(error);
    }

    /** The promise `init(body)` builds and `defer()` returns: pending, with no handlers. Its
        resolve and reject are `OnResolve` and `OnReject`. */
    constructor Deferred()
      ensures state == Pending && handlers == []
    {
      handlers := [];
      state := Pending;
    }

    /** `init(body)` for a body that calls `resolve`/`reject` before it returns, making the
        settlement attempts `outcomes` in order. The new promise has no handlers yet, so nothing
        is submitted. */
    constructor WithBody(outcomes: seq<State<T>>, ex: Executor)
      requires forall k :: 0 <= k < |outcomes| ==> !outcomes[k].IsPending()
      modifies ex
      ensures state == SettleAll(Pending, outcomes) && handlers == []
      ensures ex.tasks == old(ex.tasks)
    {
      handlers := [];
      state := Pending;
      new;
      for i := 0 to |outcomes|
        invariant handlers == [] && ex.tasks == old(ex.tasks)
        invariant state == if i == 0 then Pending else outcomes[0]
      {
        SettleWith(outcomes[i], ex);
      }
      OnlyFirstSettles(Pending, outcomes);
    }

    /** `callHandlers`: submit every handler to its queue, in order, then empty the list. */
    method CallHandlers(ex: Executor)
      modifies this`handlers, ex
      ensures handlers == []
      ensures ex.tasks == old(ex.tasks) + TasksOf(old(handlers))
    {
      var i := 0;
      while i < |handlers|
        invariant 0 <= i <= |handlers|
        invariant handlers == old(handlers)
        invariant ex.tasks == old(ex.tasks) + TasksOf(handlers[..i])
      {
        TasksOfAppend(handlers[..i], handlers[i]);
        assert handlers[..i + 1] == handlers[..i] + [handlers[i]];
        ex.Submit(TaskOf(handlers[i]));
        i := i + 1;
      }
      assert handlers[..i] == handlers;
      handlers := [];
    }

    /** `onReject`: only a pending promise is rejected. */
    method OnReject(err: Error, ex: Executor)
      modifies this, ex
      ensures Transition(this, ex, Rejected(err))
    {
      if state.IsPending() {
        state := Rejected(err);
        CallHandlers(ex);
      }
    }

    /** `onResolve`: only a pending promise is fulfilled. */
    method OnResolve(obj: Option<T>, ex: Executor)
      modifies this, ex
      ensures Transition(this, ex, Fulfilled(obj))
    {
      if state.IsPending() {
        state := Fulfilled(obj);
        CallHandlers(ex);
      }
    }

    /** The `resolve(…)` or `reject(…)` call that ends each branch of a continuation. */
    method SettleWith(outcome: State<T>, ex: Executor)
      requires !outcome.IsPending()
      modifies this, ex
      ensures Transition(this, ex, outcome)
    {
      match outcome
      case Fulfilled(v) => OnResolve(v, ex);
      case Rejected(e) => OnReject(e, ex);
    }

    /** Appending to `handlers` while the promise is pending. */
    method Subscribe(h: Handler)
      modifies this`handlers
      ensures handlers == old(handlers) + [h]
    {
      handlers := handlers + [h];
    }

    // -------------------------------------------------------------------------------------------
    // then, `(T?) -> Void` overload

    /** The private `then` of the `(T?) -> Void` overload, on queue `q`: a settled parent settles
        the child now, a pending one gets handler `h`. The body is never invoked. */
    method ThenVoid<U>(q: QueueId, h: HandlerId, ex: Executor) returns (child: Promise<U>, calls: seq<Call<T>>)
      modifies this`handlers, ex
      ensures fresh(child) && child.handlers == [] && ex.tasks == old(ex.tasks)
      ensures state.IsPending() ==> handlers == old(handlers) + [Handler(q, h, AfterThenVoid)] && child.state == Pending && calls == []
      ensures !state.IsPending() ==> handlers == old(handlers) && child.state == ThenVoidRule<T, U>(state).outcome && calls == ThenVoidRule<T, U>(state).calls
    {
      child := new Promise<U>.Deferred();
      if state.IsPending() {
        Subscribe(Handler(q, h, AfterThenVoid));
        calls := [];
      } else {
        var r := ThenVoidRule<T, U>(state);
        child.SettleWith(r.outcome, ex);
        calls := r.calls;
      }
    }

    /** The handler `ThenVoid` registers, run once the parent has settled. */
    method RunThenVoid<U>(child: Promise<U>, ex: Executor) returns (calls: seq<Call<T>>)
      requires !state.IsPending()
      modifies child, ex
      ensures Transition(child, ex, ThenVoidRule<T, U>(old(state)).outcome)
      ensures calls == ThenVoidRule<T, U>(old(state)).calls
    {
      var r := ThenVoidRule<T, U>(state);
      child.SettleWith(r.outcome, ex);
      calls := r.calls;
    }

    // -------------------------------------------------------------------------------------------
    // then, `(T?) -> U` overload

    /** The private `then` of the `(T?) -> U` overload. */
    method ThenValue<U>(q: QueueId, h: HandlerId, body: Option<T> -> Returned<U>, ex: Executor)
      returns (child: Promise<U>, calls: seq<Call<T>>)
      modifies this`handlers, ex
      ensures fresh(child) && child.handlers == [] && ex.tasks == old(ex.tasks)
      ensures state.IsPending() ==> handlers == old(handlers) + [Handler(q, h, AfterThenValue)] && child.state == Pending && calls == []
      ensures !state.IsPending() ==> handlers == old(handlers) && child.state == ThenValueRule(state, body).outcome && calls == ThenValueRule(state, body).calls
    {
      child := new Promise<U>.Deferred();
      if state.IsPending() {
        Subscribe(Handler(q, h, AfterThenValue));
        calls := [];
      } else {
        var r := ThenValueRule(state, body);
        child.SettleWith(r.outcome, ex);
        calls := r.calls;
      }
    }

    /** The handler `ThenValue` registers, run once the parent has settled. */
    method RunThenValue<U>(child: Promise<U>, body: Option<T> -> Returned<U>, ex: Executor) returns (calls: seq<Call<T>>)
      requires !state.IsPending()
      modifies child, ex
      ensures Transition(child, ex, ThenValueRule(old(state), body).outcome)
      ensures calls == ThenValueRule(old(state), body).calls
    {
      var r := ThenValueRule(state, body);
      child.SettleWith(r.outcome, ex);
      calls := r.calls;
    }

    // -------------------------------------------------------------------------------------------
    // then, `(T?) -> Promise<U>` overload

    /** The inner promise the body returns, when the parent is fulfilled. */
    function Inner<U>(body: Option<T> -> Promise<U>): set<Promise<U>>
      reads this
    {
      if state.IsFulfilled() then {body(state.value)} else {}
    }

    /** What an inner promise does for the child of a flattening `then`: a settled inner
        promise settles the child now; a pending one gets forwarding handler `h` on queue `q`. */
    method ForwardTo(child: Promise<T>, q: QueueId, h: HandlerId, ex: Executor)
      requires child != this
      modifies this`handlers, child, ex
      ensures old(state).IsPending() ==>
        handlers == old(handlers) + [Handler(q, h, AfterInner)] && unchanged(child) && ex.tasks == old(ex.tasks)
      ensures !old(state).IsPending() ==> handlers == old(handlers) && Transition(child, ex, old(state))
    {
      if state.IsPending() {
        Subscribe(Handler(q, h, AfterInner));
      } else {
        child.SettleWith(state, ex);
      }
    }

    /** The forwarding handler, run once the inner promise has settled: the child takes the
        inner promise's outcome. */
    method RunForward(child: Promise<T>, ex: Executor)
      requires !state.IsPending()
      modifies child, ex
      ensures Transition(child, ex, old(state))
    {
      child.SettleWith(state, ex);
    }

    /** The private `then` of the `(T?) -> Promise<U>` overload: the child settles as the inner
        promise the body returns settles, whether that one is settled already or still pending. */
    method ThenPromise<U>(q: QueueId, h: HandlerId, hInner: HandlerId, body: Option<T> -> Promise<U>, ex: Executor)
      returns (child: Promise<U>, calls: seq<Call<T>>)
      requires state.IsFulfilled() ==> allocated(body(state.value))
      modifies this`handlers, ex, Inner(body)`handlers
      ensures fresh(child) && ex.tasks == old(ex.tasks) && child.handlers == []
      ensures old(state).IsPending() ==>
        handlers == old(handlers) + [Handler(q, h, AfterThenPromise)] && child.state == Pending && calls == []
      ensures old(state).IsRejected() ==>
        handlers == old(handlers) && child.state == Rejected(old(state).error) && calls == []
      ensures old(state).IsFulfilled() ==>
        var inner := body(old(state).value);
        && handlers == old(handlers)
        && calls == [ThenCall(old(state).value)]
        && (old(inner.state).IsPending() ==>
              inner.handlers == old(inner.handlers) + [Handler(q, hInner, AfterInner)] && child.state == Pending)
        && (!old(inner.state).IsPending() ==>
              inner.handlers == old(inner.handlers) && child.state == old(inner.state))
    {
      child := new Promise<U>.Deferred();
      match state
      case Pending =>
        Subscribe(Handler(q, h, AfterThenPromise));
        calls := [];
      case Rejected(e) =>
        child.SettleWith(Rejected(e), ex);
        calls := [];
      case Fulfilled(v) =>
        var inner := body(v);
        inner.ForwardTo(child, q, hInner, ex);
        calls := [ThenCall(v)];
    }

    /** The handler `ThenPromise` registers on a pending parent, run once it has settled. */
    method RunThenPromise<U>(child: Promise<U>, q: QueueId, hInner: HandlerId, body: Option<T> -> Promise<U>, ex: Executor)
      returns (calls: seq<Call<T>>)
      requires !state.IsPending()
      requires state.IsFulfilled() ==> allocated(body(state.value)) && body(state.value) != child
      modifies child, ex, Inner(body)`handlers
      ensures old(state).IsRejected() ==>
        Transition(child, ex, Rejected(old(state).error)) && calls == []
      ensures old(state).IsFulfilled() ==>
        var inner := body(old(state).value);
        && calls == [ThenCall(old(state).value)]
        && (old(inner.state).IsPending() ==>
              inner.handlers == old(inner.handlers) + [Handler(q, hInner, AfterInner)] && unchanged(child) && ex.tasks == old(ex.tasks))
        && (!old(inner.state).IsPending() ==>
              inner.handlers == old(inner.handlers) && Transition(child, ex, old(inner.state)))
    {
      match state
      case Rejected(e) =>
        child.SettleWith(Rejected(e), ex);
        calls := [];
      case Fulfilled(v) =>
        var inner := body(v);
        inner.ForwardTo(child, q, hInner, ex);
        calls := [ThenCall(v)];
    }

    // -------------------------------------------------------------------------------------------
    // catch and finally

    /** The private `catch`. */
    method Catch(q: QueueId, h: HandlerId, ex: Executor) returns (child: Promise<T>, calls: seq<Call<T>>)
      modifies this`handlers, ex
      ensures fresh(child) && child.handlers == [] && ex.tasks == old(ex.tasks)
      ensures state.IsPending() ==> handlers == old(handlers) + [Handler(q, h, AfterCatch)] && child.state == Pending && calls == []
      ensures !state.IsPending() ==> handlers == old(handlers) && child.state == CatchRule(state).outcome && calls == CatchRule(state).calls
    {
      child := new Promise<T>.Deferred();
      if state.IsPending() {
        Subscribe(Handler(q, h, AfterCatch));
        calls := [];
      } else {
        var r := CatchRule(state);
        child.SettleWith(r.outcome, ex);
        calls := r.calls;
      }
    }

    /** The handler `Catch` registers, run once the parent has settled. */
    method RunCatch(child: Promise<T>, ex: Executor) returns (calls: seq<Call<T>>)
      requires !state.IsPending()
      modifies child, ex
      ensures Transition(child, ex, CatchRule(old(state)).outcome)
      ensures calls == CatchRule(old(state)).calls
    {
      var r := CatchRule(state);
      child.SettleWith(r.outcome, ex);
      calls := r.calls;
    }

    /** The private `finally`; `runs` counts the runs of its body made now. */
    method Finally(q: QueueId, h: HandlerId, ex: Executor) returns (child: Promise<T>, runs: nat)
      modifies this`handlers, ex
      ensures fresh(child) && child.handlers == [] && ex.tasks == old(ex.tasks)
      ensures state.IsPending() ==> handlers == old(handlers) + [Handler(q, h, AfterFinally)] && child.state == Pending && runs == 1
      ensures !state.IsPending() ==> handlers == old(handlers) && child.state == FinallyRule(state).outcome && runs == FinallyRuns(state)
    {
      child := new Promise<T>.Deferred();
      runs := 1;
      match state
      case Fulfilled(v) =>
        child.SettleWith(Fulfilled(v), ex);
      case Rejected(e) =>
        runs := runs + 1;
        child.SettleWith(Rejected(e), ex);
      case Pending =>
        Subscribe(Handler(q, h, AfterFinally));
    }

    /** The handler `Finally` registers: it runs the body once more and forwards the outcome. */
    method RunFinally(child: Promise<T>, ex: Executor) returns (runs: nat)
      requires !state.IsPending()
      modifies child, ex
      ensures Transition(child, ex, FinallyRule(old(state)).outcome)
      ensures runs == 1
    {
      runs := 1;
      child.SettleWith(FinallyRule(state).outcome, ex);
    }
  }
}
