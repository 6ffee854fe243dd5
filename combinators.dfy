/** `all` and `any` of Promise/Promise.all.swift. Each call builds the state its callbacks share
    (the `results` array, the counter `x` and the deferred aggregate promise); here that state is
    an object, and the two callbacks registered on input `i` are its methods `OnFulfilled(i, …)`
    (the body of `then`) and `OnRejected(i, …)` (the body of `catch`). Callers may run them in
    any order, once per input; the ghost `history` records that order, and `Valid()` keeps the
    object equal to the pure run of module FanIn over it. */
module Combinators {
  import opened PromiseState
  import opened Promises
  import opened FanIn

  /** The `for result in results` loop of `any`: does some slot hold a non-nil value? */
  method ScanForObject<K>(results: array<PromiseResult<K>>) returns (found: bool)
    ensures found <==> exists k :: 0 <= k < results.Length && results[k].obj.Some?
    ensures found == SomeObject(results[..])
  {
    for i := 0 to results.Length
      invariant forall k :: 0 <= k < i ==> results[k].obj.None?
    {
      if results[i].obj.Some? {
        assert results[..][i] == results[i];
        return true;
      }
    }
    assert forall k :: 0 <= k < results.Length ==> results[..][k] == results[k];
    return false;
  }

  /** The state one call of `all` shares among its callbacks. */
  class AllAggregator<K> {
    const n: nat
    const results: array<PromiseResult<K>>
    var x: nat
    const aggregate: Promise<seq<PromiseResult<K>>>
    ghost var history: seq<Event<K>>

    ghost predicate Valid()
      reads this, results, aggregate
    {
      && results.Length == n
      && WellFormed(n, history)
      && AllRun(n, history) == Fan(results[..], x, aggregate.state)
    }

    /** Input `i` has not settled yet. */
    ghost predicate Unsettled(i: nat)
      reads this
    {
      forall k :: 0 <= k < |history| ==> history[k].index != i
    }

    /** `all(promises)` for `n` inputs: no input yet, `n` blank slots; an empty input list gives
        an aggregate already fulfilled with an empty array. */
    constructor (n: nat)
      ensures Valid() && this.n == n && history == [] && x == 0
      ensures forall k :: 0 <= k < n ==> results[k] == Blank()
      ensures fresh(results) && fresh(aggregate) && aggregate.handlers == []
      ensures aggregate.state == if n == 0 then Fulfilled(Some([])) else Pending
    {
      var rs := new PromiseResult<K>[n](_ => Blank());
      for index := 0 to n
        invariant forall k :: 0 <= k < n ==> rs[k] == Blank()
      {
        rs[index] := Blank();
      }
      this.n := n;
      results := rs;
      x := 0;
      if n == 0 {
        aggregate := new Promise<seq<PromiseResult<K>>>.WithValue(Some([]));
      } else {
        aggregate := new Promise<seq<PromiseResult<K>>>.Deferred();
      }
      history := [];
      new;
      assert results[..] == Start<K>(n).results;
    }

    /** The `then` body on input `i`: store a non-nil value, count the fulfilment, and resolve
        the aggregate with the results when it is the `n`th. */
    method OnFulfilled(i: nat, v: Option<K>, ex: Executor)
      requires Valid() && i < n && Unsettled(i)
      modifies this, results, aggregate, ex
      ensures Valid() && history == old(history) + [Fulfil(i, v)]
      ensures x == old(x) + 1
      ensures results[..] == if v.Some? then old(results[..])[i := old(results[i]).(obj := v)] else old(results[..])
      ensures if x == n then Transition(aggregate, ex, Fulfilled(Some(results[..])))
              else unchanged(aggregate) && ex.tasks == old(ex.tasks)
    {
      if v.Some? {
        results[i] := results[i].(obj := v);
      }
      x := x + 1;
      if x == n {
        aggregate.OnResolve(Some(results[..]), ex);
      }
      Record(Fulfil(i, v));
    }

    /** The `catch(reject)` on input `i`: reject the aggregate with the error. */
    method OnRejected(i: nat, e: Error, ex: Executor)
      requires Valid() && i < n && Unsettled(i)
      modifies this`history, aggregate, ex
      ensures Valid() && history == old(history) + [Reject(i, e)]
      ensures Transition(aggregate, ex, Rejected(e))
    {
      aggregate.OnReject(e, ex);
      Record(Reject(i, e));
    }

    ghost method Record(ev: Event<K>)
      requires ev.index < n && Unsettled(ev.index) && WellFormed(n, history)
      requires AllStep(AllRun(n, history), ev) == Fan(results[..], x, aggregate.state)
      modifies this`history
      ensures history == old(history) + [ev] && Valid()
    {
      var h := history + [ev];
      assert h[..|h| - 1] == history;
      history := h;
    }
  }

  /** The state one call of `any` shares among its callbacks. */
  class AnyAggregator<K> {
    const n: nat
    const results: array<PromiseResult<K>>
    var x: nat
    const aggregate: Promise<seq<PromiseResult<K>>>
    ghost var history: seq<Event<K>>

    ghost predicate Valid()
      reads this, results, aggregate
    {
      && results.Length == n
      && WellFormed(n, history)
      && AnyRun(n, history) == Fan(results[..], x, aggregate.state)
    }

    /** Input `i` has not settled yet. */
    ghost predicate Unsettled(i: nat)
      reads this
    {
      forall k :: 0 <= k < |history| ==> history[k].index != i
    }

    /** `any(promises)` for `n` inputs. */
    constructor (n: nat)
      ensures Valid() && this.n == n && history == [] && x == 0
      ensures forall k :: 0 <= k < n ==> results[k] == Blank()
      ensures fresh(results) && fresh(aggregate) && aggregate.handlers == []
      ensures aggregate.state == if n == 0 then Fulfilled(Some([])) else Pending
    {
      var rs := new PromiseResult<K>[n](_ => Blank());
      for index := 0 to n
        invariant forall k :: 0 <= k < n ==> rs[k] == Blank()
      {
        rs[index] := Blank();
      }
      this.n := n;
      results := rs;
      x := 0;
      if n == 0 {
        aggregate := new Promise<seq<PromiseResult<K>>>.WithValue(Some([]));
      } else {
        aggregate := new Promise<seq<PromiseResult<K>>>.Deferred();
      }
      history := [];
      new;
      assert results[..] == Start<K>(n).results;
    }

    /** The `then` body on input `i`: a non-nil value goes into the slot and clears its error;
        the settlement is counted, and the `n`th resolves the aggregate with the results. */
    method OnFulfilled(i: nat, v: Option<K>, ex: Executor)
      requires Valid() && i < n && Unsettled(i)
      modifies this, results, aggregate, ex
      ensures Valid() && history == old(history) + [Fulfil(i, v)]
      ensures x == old(x) + 1
      ensures results[..] == if v.Some? then old(results[..])[i := PromiseResult(v, None)] else old(results[..])
      ensures if x == n then Transition(aggregate, ex, Fulfilled(Some(results[..])))
              else unchanged(aggregate) && ex.tasks == old(ex.tasks)
    {
      if v.Some? {
        results[i] := results[i].(obj := v);
        results[i] := results[i].(error := None);
      }
      assert results[..] == if v.Some? then old(results[..])[i := PromiseResult(v, None)] else old(results[..]);
      x := x + 1;
      if x == n {
        aggregate.OnResolve(Some(results[..]), ex);
      }
      Record(Fulfil(i, v));
    }

    /** The `catch` body on input `i`: the slot gets the error and loses its value; the
        settlement is counted, and the `n`th resolves the aggregate if some slot holds a value
        and rejects it with this error if none does. */
    method OnRejected(i: nat, e: Error, ex: Executor)
      requires Valid() && i < n && Unsettled(i)
      modifies this, results, aggregate, ex
      ensures Valid() && history == old(history) + [Reject(i, e)]
      ensures x == old(x) + 1
      ensures results[..] == old(results[..])[i := PromiseResult(None, Some(e))]
      ensures x == n && SomeObject(results[..]) ==> Transition(aggregate, ex, Fulfilled(Some(results[..])))
      ensures x == n && !SomeObject(results[..]) ==> Transition(aggregate, ex, Rejected(e))
      ensures x != n ==> unchanged(aggregate) && ex.tasks == old(ex.tasks)
    {
      results[i] := results[i].(obj := None);
      results[i] := results[i].(error := Some(e));
      assert results[..] == old(results[..])[i := PromiseResult(None, Some(e))];
      x := x + 1;
      if x == n {
        var found := ScanForObject(results);
        if found {
          aggregate.OnResolve(Some(results[..]), ex);
        } else {
          aggregate.OnReject(e, ex);
        }
      }
      Record(Reject(i, e));
    }

    ghost method Record(ev: Event<K>)
      requires ev.index < n && Unsettled(ev.index) && WellFormed(n, history)
      requires AnyStep(AnyRun(n, history), ev) == Fan(results[..], x, aggregate.state)
      modifies this`history
      ensures history == old(history) + [ev] && Valid()
    {
      var h := history + [ev];
      assert h[..|h| - 1] == history;
      history := h;
    }
  }

  /** Whatever order its callbacks ran in: the counter of `all` counts fulfilments; the
      aggregate is fulfilled, with the results, exactly when all `n` inputs have fulfilled; and
      a rejection rejects it with the first rejection's error. */
  lemma AllAggregatorOutcome<K>(c: AllAggregator<K>)
    requires c.Valid() && c.n > 0
    ensures c.x == Fulfilments(c.history)
    ensures c.aggregate.state.IsFulfilled() <==> |c.history| == c.n && !SomeRejection(c.history)
    ensures c.aggregate.state.IsFulfilled() ==> c.aggregate.state.value == Some(c.results[..])
    ensures SomeRejection(c.history) ==> c.aggregate.state == Rejected(FirstRejection(c.history))
  {
    AllCounter(c.n, c.history);
    AllAggregate(c.n, c.history);
    HistoryBound(c.n, c.history);
  }

  /** Whatever order its callbacks ran in: every settled input of `any` was counted once, the
      aggregate is pending exactly until all `n` have settled, and then it is fulfilled, with
      the results, exactly when the last settler fulfilled or some input fulfilled with a value;
      otherwise it is rejected with the last settler's error. */
  lemma AnyAggregatorOutcome<K>(c: AnyAggregator<K>)
    requires c.Valid() && c.n > 0
    ensures c.x == |c.history| <= c.n
    ensures c.aggregate.state.IsPending() <==> c.x < c.n
    ensures c.x == c.n ==>
      (c.aggregate.state.IsFulfilled() <==>
         c.history[c.n - 1].Fulfil? || exists k :: 0 <= k < c.n && c.history[k].Fulfil? && c.history[k].value.Some?)
    ensures c.aggregate.state.IsFulfilled() ==> c.aggregate.state.value == Some(c.results[..])
    ensures c.aggregate.state.IsRejected() ==> c.aggregate.state.error == c.history[c.n - 1].error
  {
    AnyCounter(c.n, c.history);
    AnyAggregate(c.n, c.history);
    if c.x == c.n {
      AnyOutcome(c.n, c.history);
    }
  }
}
