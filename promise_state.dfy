/** The values a promise moves through, and the rules by which `then`, `catch` and `finally`
    choose the outcome of the promise they return (Promise/Promise.swift). Everything here is
    pure: the class that stores a state and its handlers is in module Promises. */
module PromiseState {

  datatype Option<T> = None | Some(value: T)

  /** An NSError, reduced to the two fields callers compare. Errors are compared by value. */
  datatype Error = Error(domain: string, code: int)

  /** PromiseState<T>: pending, fulfilled with an optional value, or rejected with an error. */
  datatype State<T> = Pending | Fulfilled(value: Option<T>) | Rejected(error: Error)
  {
    /** The `rejected` accessor. */
    predicate IsRejected() {
      match this
      case Fulfilled(_) => false
      case Pending => false
      case Rejected(_) => true
    }

    /** The `fulfilled` accessor. */
    predicate IsFulfilled() {
      match this
      case Rejected(_) => false
      case Pending => false
      case Fulfilled(_) => true
    }

    /** The `pending` accessor. */
    predicate IsPending() {
      match this
      case Rejected(_) => false
      case Fulfilled(_) => false
      case Pending => true
    }

    /** The `value` accessor: the stored value of a fulfilled promise, nil otherwise. */
    function Value(): (v: Option<T>)
      ensures v.Some? ==> IsFulfilled() && v == this.value
    {
      match this
      case Fulfilled(value) => value
      case _ => None
    }
  }

  /** Exactly one of the three accessors holds, and only a fulfilled promise has a value. */
  lemma ExactlyOneStatus<T>(s: State<T>)
    ensures s.IsPending() || s.IsFulfilled() || s.IsRejected()
    ensures !(s.IsPending() && s.IsFulfilled())
    ensures !(s.IsPending() && s.IsRejected())
    ensures !(s.IsFulfilled() && s.IsRejected())
    ensures s.Value().Some? ==> s.IsFulfilled()
    ensures s.IsFulfilled() ==> s.Value() == s.value
  {
  }

  /** The transition `onResolve`/`onReject` make: only a pending promise takes the new outcome. */
  function Settle<T>(s: State<T>, outcome: State<T>): State<T>
  {
    if s.IsPending() then outcome else s
  }

  /** First settlement wins: once settled, any later resolve or reject leaves the state alone,
      and a settled state is left settled. */
  lemma FirstSettlementWins<T>(s: State<T>, first: State<T>, later: State<T>)
    requires !first.IsPending()
    ensures !Settle(s, first).IsPending()
    ensures Settle(Settle(s, first), later) == Settle(s, first)
    ensures !s.IsPending() ==> Settle(s, first) == s
    ensures s.IsPending() ==> Settle(s, first) == first
  {
  }

  /** The state after the settlement attempts `outcomes`, made in order, starting from `s`. */
  function SettleAll<T>(s: State<T>, outcomes: seq<State<T>>): State<T>
    decreases |outcomes|
  {
    if outcomes == [] then s else SettleAll(Settle(s, outcomes[0]), outcomes[1..])
  }

  /** Of any series of resolve and reject calls, only the first one made on a pending promise
      takes effect. */
  lemma {:induction false} OnlyFirstSettles<T>(s: State<T>, outcomes: seq<State<T>>)
    requires forall k :: 0 <= k < |outcomes| ==> !outcomes[k].IsPending()
    ensures SettleAll(s, outcomes) == if s.IsPending() && outcomes != [] then outcomes[0] else s
    decreases |outcomes|
  {
    if outcomes != [] {
      OnlyFirstSettles(Settle(s, outcomes[0]), outcomes[1..]);
    }
  }

  // ---------------------------------------------------------------------------------------------
  // What a continuation body returned

  /** The result of a value-returning body, as the runtime checks `is Void` and `as? NSError`
      see it: a value, Void, nil, or an NSError. */
  datatype Returned<U> = Val(value: U) | VoidResult | NilResult | ErrorResult(error: Error)

  /** `voidToNil`: a Void result becomes nil; every other result passes through. */
  function VoidToNil<U>(r: Returned<U>): (n: Returned<U>)
    ensures !n.VoidResult?
    ensures r.VoidResult? ==> n.NilResult?
    ensures !r.VoidResult? ==> n == r
  {
    match r
    case VoidResult => NilResult
    case _ => r
  }

  lemma VoidToNilIdempotent<U>(r: Returned<U>)
    ensures VoidToNil(VoidToNil(r)) == VoidToNil(r)
  {
  }

  /** What the value-returning `then` does with its body's result after `voidToNil`:
      an NSError rejects, nil (or Void) fulfils with nil, any other value fulfils with it. */
  function Resolution<U>(r: Returned<U>): (s: State<U>)
    ensures !s.IsPending()
    ensures s.IsRejected() <==> r.ErrorResult?
    ensures r.ErrorResult? ==> s == Rejected(r.error)
    ensures r.Val? <==> s.IsFulfilled() && s.value.Some?
    ensures r.Val? ==> s == Fulfilled(Some(r.value))
  {
    match VoidToNil(r)
    case ErrorResult(e) => Rejected(e)
    case Val(v) => Fulfilled(Some(v))
    case _ => Fulfilled(None)
  }

  // ---------------------------------------------------------------------------------------------
  // The chaining rules

  /** One invocation of a continuation body, with the argument it received (`finally`'s body
      takes none). */
  datatype Call<T> = ThenCall(arg: Option<T>) | CatchCall(error: Error) | FinallyCall

  /** What a chaining operator does once its parent is settled: the body invocations it makes
      and the outcome it gives the child (Pending when the child waits on an inner promise). */
  datatype Reaction<T, U> = Reaction(calls: seq<Call<T>>, outcome: State<U>)

  /** The `(T?) -> Void` overload of `then`: the body is never invoked, and a fulfilled
      parent gives a child fulfilled with nil. */
  function ThenVoidRule<T, U>(s: State<T>): (r: Reaction<T, U>)
    requires !s.IsPending()
    ensures r.calls == [] && !r.outcome.IsPending()
    ensures r.outcome.IsRejected() <==> s.IsRejected()
    ensures s.IsRejected() ==> r.outcome.error == s.error
    ensures r.outcome.IsFulfilled() ==> r.outcome.value == None
  {
    match s
    case Rejected(e) => Reaction([], Rejected(e))
    case Fulfilled(_) => Reaction([], Fulfilled(None))
  }

  /** The `(T?) -> U` overload of `then`: a rejection passes by the body; a fulfilled value is
      handed to the body, whose result decides the child. */
  function ThenValueRule<T, U>(s: State<T>, body: Option<T> -> Returned<U>): (r: Reaction<T, U>)
    requires !s.IsPending()
    ensures !r.outcome.IsPending()
    ensures r.calls != [] <==> s.IsFulfilled()
    ensures s.IsFulfilled() ==> r.calls == [ThenCall(s.value)] && r.outcome == Resolution(body(s.value))
    ensures s.IsRejected() ==> r.outcome == Rejected(s.error)
  {
    match s
    case Rejected(e) => Reaction([], Rejected(e))
    case Fulfilled(v) => Reaction([ThenCall(v)], Resolution(body(v)))
  }

  /** The `(T?) -> Promise<U>` overload of `then`, given the state the inner promise the body
      returns eventually reaches: the child takes that state. */
  function FlattenRule<T, U>(s: State<T>, inner: Option<T> -> State<U>): (r: Reaction<T, U>)
    requires !s.IsPending()
    ensures r.calls != [] <==> s.IsFulfilled()
    ensures s.IsFulfilled() ==> r.calls == [ThenCall(s.value)] && r.outcome == inner(s.value)
    ensures s.IsRejected() ==> r.outcome == Rejected(s.error)
  {
    match s
    case Rejected(e) => Reaction([], Rejected(e))
    case Fulfilled(v) => Reaction([ThenCall(v)], inner(v))
  }

  /** `catch`: the body receives a rejection's error, and the child is rejected with that same
      error all the same; a fulfilled value is forwarded without invoking the body. */
  function CatchRule<T>(s: State<T>): (r: Reaction<T, T>)
    requires !s.IsPending()
    ensures r.outcome == s
    ensures r.calls != [] <==> s.IsRejected()
    ensures s.IsRejected() ==> r.calls == [CatchCall(s.error)]
  {
    match s
    case Rejected(e) => Reaction([CatchCall(e)], Rejected(e))
    case Fulfilled(v) => Reaction([], Fulfilled(v))
  }

  /** `finally` attached to a settled promise: the body runs once before the state is looked at
      and once more for a rejection, and the outcome is forwarded unchanged. */
  function FinallyRule<T>(s: State<T>): (r: Reaction<T, T>)
    requires !s.IsPending()
    ensures r.outcome == s
    ensures |r.calls| == FinallyRuns(s)
    ensures forall k :: 0 <= k < |r.calls| ==> r.calls[k] == FinallyCall
  {
    match s
    case Rejected(e) => Reaction([FinallyCall, FinallyCall], Rejected(e))
    case Fulfilled(v) => Reaction([FinallyCall], Fulfilled(v))
  }

  /** How many times `finally` runs its argument-less body when it attaches to a promise in
      state `s`: once before looking at the state, once more for a rejection, and, for a pending
      promise, once more in the handler whatever the outcome. */
  function FinallyRuns<T>(s: State<T>): (n: nat)
    ensures 1 <= n <= 2
    ensures n == 1 <==> s.IsFulfilled()
  {
    if s.IsFulfilled() then 1 else 2
  }

  /** A rejected parent rejects the child of every `then` with the same error, and no body runs. */
  lemma RejectionSkipsThen<T, U>(e: Error, body: Option<T> -> Returned<U>, inner: Option<T> -> State<U>)
    ensures ThenVoidRule<T, U>(Rejected(e)) == Reaction([], Rejected(e))
    ensures ThenValueRule(Rejected(e), body) == Reaction([], Rejected(e))
    ensures FlattenRule(Rejected(e), inner) == Reaction([], Rejected(e))
  {
  }

  /** A fulfilled parent runs a value-returning body once on its value: an NSError result
      rejects the child, Void or nil fulfils it with nil, any other value fulfils it with it. */
  lemma FulfilledRunsBody<T, U>(v: Option<T>, body: Option<T> -> Returned<U>)
    ensures ThenValueRule(Fulfilled(v), body).calls == [ThenCall(v)]
    ensures body(v).ErrorResult? ==> ThenValueRule(Fulfilled(v), body).outcome == Rejected(body(v).error)
    ensures body(v).VoidResult? || body(v).NilResult? ==> ThenValueRule(Fulfilled(v), body).outcome == Fulfilled(None)
    ensures body(v).Val? ==> ThenValueRule(Fulfilled(v), body).outcome == Fulfilled(Some(body(v).value))
    ensures ThenVoidRule<T, U>(Fulfilled(v)) == Reaction([], Fulfilled(None))
  {
  }

  /** `catch` and `finally` never change the outcome; `catch` runs its body exactly for a
      rejection, on that rejection's error, and `finally` runs its body once for a fulfilled
      promise and twice for a rejected one. */
  lemma ObserversForward<T>(s: State<T>)
    requires !s.IsPending()
    ensures CatchRule(s).outcome == s && FinallyRule(s).outcome == s
    ensures |FinallyRule(s).calls| == FinallyRuns(s)
    ensures forall k :: 0 <= k < |FinallyRule(s).calls| ==> FinallyRule(s).calls[k] == FinallyCall
    ensures CatchRule(s).calls == if s.IsRejected() then [CatchCall(s.error)] else []
  {
  }

  // ---------------------------------------------------------------------------------------------
  // Chains of operators attached one after the other

  /** One operator of a chain whose children all have the parent's element type. */
  datatype Link<!T> =
    | ThenVoidLink
    | ThenValueLink(body: Option<T> -> Returned<T>)
    | FlattenLink(inner: Option<T> -> State<T>)
    | CatchLink
    | FinallyLink

  /** The reaction of one link attached to a parent in state `s`, where a settled `s` is settled
      already when the link is attached and `Pending` means the parent never settles. Such a
      parent leaves the child pending, and only a `finally` runs its body, once, on attaching. */
  function Step<T>(s: State<T>, link: Link<T>): Reaction<T, T>
  {
    if s.IsPending() then Reaction(if link.FinallyLink? then [FinallyCall] else [], Pending)
    else match link
      case ThenVoidLink => ThenVoidRule(s)
      case ThenValueLink(body) => ThenValueRule(s, body)
      case FlattenLink(inner) => FlattenRule(s, inner)
      case CatchLink => CatchRule(s)
      case FinallyLink => FinallyRule(s)
  }

  /** The state the last promise of a chain reaches when its head reaches `s`. */
  function ChainOutcome<T>(s: State<T>, links: seq<Link<T>>): State<T>
    decreases |links|
  {
    if links == [] then s else ChainOutcome(Step(s, links[0]).outcome, links[1..])
  }

  /** The body invocations along a chain, in order. */
  function ChainCalls<T>(s: State<T>, links: seq<Link<T>>): seq<Call<T>>
    decreases |links|
  {
    if links == [] then [] else Step(s, links[0]).calls + ChainCalls(Step(s, links[0]).outcome, links[1..])
  }

  /** The number of `catch` links in a chain. */
  function Catches<T>(links: seq<Link<T>>): nat
    decreases |links|
  {
    if links == [] then 0 else (if links[0].CatchLink? then 1 else 0) + Catches(links[1..])
  }

  /** The number of `finally` links in a chain. */
  function Finallies<T>(links: seq<Link<T>>): nat
    decreases |links|
  {
    if links == [] then 0 else (if links[0].FinallyLink? then 1 else 0) + Finallies(links[1..])
  }

  /** The body invocations a rejection with error `e` causes, link by link: a `catch` runs its
      body once with `e`, a `finally` runs its body twice, and every `then` runs nothing. */
  function RejectedCalls<T>(e: Error, links: seq<Link<T>>): seq<Call<T>>
    decreases |links|
  {
    if links == [] then []
    else
      (match links[0]
       case CatchLink => [CatchCall(e)]
       case FinallyLink => [FinallyCall, FinallyCall]
       case _ => [])
      + RejectedCalls(e, links[1..])
  }

  /** A rejection travels unchanged to the end of any chain (`catch` does not recover). The only
      bodies that run on the way are each `catch` body, once, receiving that error, and each
      `finally` body, twice, in the order of the links. */
  lemma {:induction false} RejectionTravelsChain<T>(e: Error, links: seq<Link<T>>)
    ensures ChainOutcome(Rejected(e), links) == Rejected(e)
    ensures ChainCalls(Rejected(e), links) == RejectedCalls(e, links)
    ensures forall k :: 0 <= k < |ChainCalls(Rejected(e), links)| ==>
      ChainCalls(Rejected(e), links)[k] == CatchCall(e) || ChainCalls(Rejected(e), links)[k] == FinallyCall
    ensures |ChainCalls(Rejected(e), links)| == Catches(links) + 2 * Finallies(links)
    decreases |links|
  {
    if links != [] {
      RejectionTravelsChain(e, links[1..]);
    }
  }

  /** A rejection that passes any number of `then` links reaches the `catch` after them: that
      `catch` is the only body to run, and it receives the error. */
  lemma {:induction false} RejectionReachesCatch<T>(e: Error, thens: seq<Link<T>>)
    requires forall k :: 0 <= k < |thens| ==> !thens[k].CatchLink? && !thens[k].FinallyLink?
    ensures ChainCalls(Rejected(e), thens + [CatchLink]) == [CatchCall(e)]
    ensures ChainOutcome(Rejected(e), thens + [CatchLink]) == Rejected(e)
    decreases |thens|
  {
    RejectionTravelsChain(e, thens + [CatchLink]);
    ThensRunNothing(e, thens);
  }

  /** `RejectedCalls` of `then` links followed by one `catch`. */
  lemma {:induction false} ThensRunNothing<T>(e: Error, thens: seq<Link<T>>)
    requires forall k :: 0 <= k < |thens| ==> !thens[k].CatchLink? && !thens[k].FinallyLink?
    ensures RejectedCalls(e, thens + [CatchLink]) == [CatchCall(e)]
    decreases |thens|
  {
    if thens == [] {
      assert thens + [CatchLink] == [CatchLink];
    } else {
      assert (thens + [CatchLink])[0] == thens[0];
      assert (thens + [CatchLink])[1..] == thens[1..] + [CatchLink];
      ThensRunNothing(e, thens[1..]);
    }
  }

  /** Inserting a `catch` or a `finally` anywhere in a chain does not change where it ends. */
  lemma {:induction false} ObserverTransparent<T>(s: State<T>, before: seq<Link<T>>, observer: Link<T>, after: seq<Link<T>>)
    requires observer.CatchLink? || observer.FinallyLink?
    ensures ChainOutcome(s, before + [observer] + after) == ChainOutcome(s, before + after)
    decreases |before|
  {
    if before == [] {
      var links := before + [observer] + after;
      assert links[0] == observer && links[1..] == after && before + after == after;
      assert Step(s, observer).outcome == s;
    } else {
      assert (before + [observer] + after)[1..] == before[1..] + [observer] + after;
      assert (before + after)[1..] == before[1..] + after;
      ObserverTransparent(Step(s, before[0]).outcome, before[1..], observer, after);
    }
  }

  /** A chain that never settles at its head never settles at its end, and the only bodies it
      runs are its `finally` bodies, once each. */
  lemma {:induction false} PendingChainWaits<T>(links: seq<Link<T>>)
    ensures ChainOutcome(Pending, links) == Pending
    ensures forall k :: 0 <= k < |ChainCalls(Pending, links)| ==> ChainCalls(Pending, links)[k] == FinallyCall
    ensures |ChainCalls(Pending, links)| == Finallies(links)
    decreases |links|
  {
    if links != [] {
      PendingChainWaits(links[1..]);
    }
  }
}
