/** Client code built on the model: the chains of PromiseTests/PromiseTests.swift and a few
    runs of `all` and `any`, each with the outcome it reaches. Every scenario builds its own
    promises and executor. Handlers registered on a pending promise run when the scenario calls
    the matching `Run…` method, after the settlement has submitted them. */
module Scenarios {
  import opened PromiseState
  import opened Promises
  import opened FanIn
  import opened Combinators

  function Doubled(v: Option<int>): Returned<int> {
    if v.Some? then Val(2 * v.value) else NilResult
  }

  /** A pending promise with a doubling `then` attached: resolving it with 25 submits that one
      handler to its queue, and running it fulfils the child with 50. */
  method DeferredDoubling() returns (submitted: seq<Task>, calls: seq<Call<int>>, outcome: State<int>)
    ensures submitted == [Task(BackgroundQueue, 1)]
    ensures calls == [ThenCall(Some(25))]
    ensures outcome == Fulfilled(Some(50))
  {
    var ex := new Executor();
    var p := new Promise<int>.Deferred();
    var child, none := p.ThenValue(BackgroundQueue, 1, Doubled, ex);
    assert child.state == Pending && p.handlers == [Handler(BackgroundQueue, 1, AfterThenValue)];
    p.OnResolve(Some(25), ex);
    TasksOfInOrder([Handler(BackgroundQueue, 1, AfterThenValue)]);
    submitted := ex.tasks;
    calls := p.RunThenValue(child, Doubled, ex);
    outcome := child.state;
  }

  /** Once settled, a promise ignores a later reject and a later resolve. */
  method SettleTwice() returns (first: State<int>, afterReject: State<int>, afterResolve: State<int>)
    ensures first == Fulfilled(Some(1)) && afterReject == first && afterResolve == first
  {
    var ex := new Executor();
    var p := new Promise<int>.Deferred();
    p.OnResolve(Some(1), ex);
    first := p.state;
    p.OnReject(Error("Error", 1), ex);
    afterReject := p.state;
    p.OnResolve(Some(2), ex);
    afterResolve := p.state;
  }

  function Returns24(v: Option<int>): Returned<int> {
    Val(24)
  }

  function ReturnsHello(v: Option<int>): Returned<string> {
    Val("Hello")
  }

  function ReturnsVoid(v: Option<string>): Returned<string> {
    VoidResult
  }

  /** testEmptyInit: `Promise()` hands nil to the first body, 24 reaches the second, and
      "Hello" reaches the last, whose Void result fulfils its child with nil. */
  method EmptyInitChain() returns (calls1: seq<Call<int>>, calls2: seq<Call<int>>, calls3: seq<Call<string>>, outcome: State<string>)
    ensures calls1 == [ThenCall(None)]
    ensures calls2 == [ThenCall(Some(24))]
    ensures calls3 == [ThenCall(Some("Hello"))]
    ensures outcome == Fulfilled(None)
  {
    var ex := new Executor();
    var p := new Promise<int>.Empty();
    var c1, c2, c3;
    c1, calls1 := p.ThenValue(BackgroundQueue, 1, Returns24, ex);
    c2, calls2 := c1.ThenValue(BackgroundQueue, 2, ReturnsHello, ex);
    c3, calls3 := c2.ThenValue(MainQueue, 3, ReturnsVoid, ex);
    outcome := c3.state;
  }

  function Fails(v: Option<string>): Returned<Error> {
    ErrorResult(Error("Error", 123))
  }

  function FailsAgain(v: Option<Error>): Returned<Error> {
    ErrorResult(Error("Error", 123))
  }

  /** testCatch: a body that returns an NSError rejects its child, the rejection passes the next
      `then` without running its body, and `catch` receives it and stays rejected. */
  method CatchChain() returns (calls1: seq<Call<int>>, calls2: seq<Call<string>>, calls3: seq<Call<Error>>,
                               caught: seq<Call<Error>>, outcome: State<Error>)
    ensures calls1 == [ThenCall(Some(25))]
    ensures calls2 == [ThenCall(Some("Promise"))]
    ensures calls3 == []
    ensures caught == [CatchCall(Error("Error", 123))]
    ensures outcome == Rejected(Error("Error", 123))
  {
    var ex := new Executor();
    var p := new Promise<int>.WithBody([Fulfilled(Some(25))], ex);
    var inner := new Promise<string>.WithBody([Fulfilled(Some("Promise"))], ex);
    var c1;
    c1, calls1 := p.ThenPromise(BackgroundQueue, 1, 2, (v: Option<int>) => inner, ex);
    var c2, c3, c4;
    c2, calls2 := c1.ThenValue(BackgroundQueue, 3, Fails, ex);
    c3, calls3 := c2.ThenValue(BackgroundQueue, 4, FailsAgain, ex);
    c4, caught := c3.Catch(BackgroundQueue, 5, ex);
    outcome := c4.state;
  }

  /** testDefer: the second body returns a pending deferred promise, and the last `then` is
      attached while the flattened child still waits on it. Resolving the inner promise with
      "Hello" submits the forwarding handler; running it settles the child and submits the
      last handler, on the main queue; running that one hands "Hello" to the last body. */
  method DeferChain() returns (submitted: seq<Task>, calls: seq<Call<string>>, outcome: State<string>)
    ensures submitted == [Task(BackgroundQueue, 3), Task(MainQueue, 4)]
    ensures calls == [ThenCall(Some("Hello"))]
    ensures outcome == Fulfilled(None)
  {
    var ex := new Executor();
    var p := new Promise<int>.Empty();
    var c1, _ := p.ThenValue(BackgroundQueue, 1, Returns24, ex);
    assert c1.state == Fulfilled(Some(24));
    var inner := new Promise<string>.Deferred();
    var body := (v: Option<int>) => inner;
    assert c1.Inner(body) == {inner};
    var c2, _ := c1.ThenPromise(BackgroundQueue, 2, 3, body, ex);
    assert c2.state == Pending && c2.handlers == [] && ex.tasks == [];
    assert inner.state == Pending && inner.handlers == [Handler(BackgroundQueue, 3, AfterInner)];
    var c3, _ := c2.ThenValue(MainQueue, 4, ReturnsVoid, ex);
    assert c2.handlers == [Handler(MainQueue, 4, AfterThenValue)] && c2.state == Pending;
    inner.OnResolve(Some("Hello"), ex);
    TasksOfInOrder([Handler(BackgroundQueue, 3, AfterInner)]);
    assert ex.tasks == [Task(BackgroundQueue, 3)];
    inner.RunForward(c2, ex);
    TasksOfInOrder([Handler(MainQueue, 4, AfterThenValue)]);
    assert c2.state == Fulfilled(Some("Hello"));
    submitted := ex.tasks;
    calls := c2.RunThenValue(c3, ReturnsVoid, ex);
    outcome := c3.state;
  }

  /** `finally` on a rejected promise runs its body twice and forwards the rejection; on a
      promise that is still pending, it runs it once now and once more in its handler. */
  method FinallyCounts() returns (rejectedRuns: nat, pendingRuns: nat, handlerRuns: nat, outcome: State<int>)
    ensures rejectedRuns == 2 && pendingRuns + handlerRuns == 2
    ensures outcome == Rejected(Error("Error", 7))
  {
    var ex := new Executor();
    var r := new Promise<int>.WithError(Error("Error", 7));
    var _, n := r.Finally(BackgroundQueue, 1, ex);
    rejectedRuns := n;
    var p := new Promise<int>.Deferred();
    var child, m := p.Finally(BackgroundQueue, 2, ex);
    pendingRuns := m;
    p.OnReject(Error("Error", 7), ex);
    handlerRuns := p.RunFinally(child, ex);
    outcome := child.state;
  }

  /** `all` of two inputs fulfilled in reverse order: the aggregate waits for the second
      fulfilment and then holds both values, each in its input's slot. */
  method AllOfTwo() returns (waiting: State<seq<PromiseResult<int>>>, outcome: State<seq<PromiseResult<int>>>)
    ensures waiting == Pending
    ensures outcome == Fulfilled(Some([PromiseResult(Some(5), None), PromiseResult(Some(7), None)]))
  {
    var ex := new Executor();
    var c := new AllAggregator<int>(2);
    assert c.results[..] == [Blank(), Blank()];
    c.OnFulfilled(1, Some(7), ex);
    waiting := c.aggregate.state;
    c.OnFulfilled(0, Some(5), ex);
    assert c.results[..] == [PromiseResult(Some(5), None), PromiseResult(Some(7), None)];
    outcome := c.aggregate.state;
  }

  /** `all` of two inputs where one rejects first: the aggregate is rejected at once and the
      later fulfilment leaves it rejected. */
  method AllRejected() returns (rejected: State<seq<PromiseResult<int>>>, outcome: State<seq<PromiseResult<int>>>)
    ensures rejected == Rejected(Error("Error", 9))
    ensures outcome == rejected
  {
    var ex := new Executor();
    var c := new AllAggregator<int>(2);
    c.OnRejected(1, Error("Error", 9), ex);
    rejected := c.aggregate.state;
    c.OnFulfilled(0, Some(5), ex);
    outcome := c.aggregate.state;
  }

  /** `any` of two inputs: a value recorded before a final rejection wins. */
  method AnyValueWins() returns (outcome: State<seq<PromiseResult<int>>>)
    ensures outcome == Fulfilled(Some([PromiseResult(Some(5), None), PromiseResult(None, Some(Error("Error", 9)))]))
  {
    var ex := new Executor();
    var c := new AnyAggregator<int>(2);
    assert c.results[..] == [Blank(), Blank()];
    c.OnFulfilled(0, Some(5), ex);
    assert c.results[..] == [PromiseResult(Some(5), None), Blank()];
    c.OnRejected(1, Error("Error", 9), ex);
    assert c.results[..] == [PromiseResult(Some(5), None), PromiseResult(None, Some(Error("Error", 9)))];
    assert SomeObject(c.results[..]) by {
      assert c.results[..][0].obj.Some?;
    }
    outcome := c.aggregate.state;
  }

  /** `any` of two inputs: an input that fulfilled with nil records nothing, so a final
      rejection rejects the aggregate. */
  method AnyNilLoses() returns (outcome: State<seq<PromiseResult<int>>>)
    ensures outcome == Rejected(Error("Error", 9))
  {
    var ex := new Executor();
    var c := new AnyAggregator<int>(2);
    assert c.results[..] == [Blank(), Blank()];
    c.OnFulfilled(0, None, ex);
    c.OnRejected(1, Error("Error", 9), ex);
    assert c.results[..] == [Blank(), PromiseResult(None, Some(Error("Error", 9)))];
    assert !SomeObject(c.results[..]) by {
      assert forall k :: 0 <= k < 2 ==> c.results[..][k].obj.None?;
    }
    outcome := c.aggregate.state;
  }

  /** `all([])` and `any([])` are fulfilled with an empty array from the start. */
  method EmptyCombinators() returns (all: State<seq<PromiseResult<int>>>, any: State<seq<PromiseResult<int>>>)
    ensures all == Fulfilled(Some([])) && any == Fulfilled(Some([]))
  {
    var c := new AllAggregator<int>(0);
    var d := new AnyAggregator<int>(0);
    all := c.aggregate.state;
    any := d.aggregate.state;
  }
}
