/** The bookkeeping of `all` and `any` (Promise/Promise.all.swift) as pure functions of the
    order in which the input promises settle. A run is a sequence of events, one per input
    that has settled so far, in settlement order; the classes in module Combinators keep their
    `results` array, counter and aggregate promise equal to the run of the events they saw. */
module FanIn {
  import opened PromiseState

  /** PromiseResult<K>: the slot of one input, with an optional value and an optional error,
      both nil when the slot is made. */
  datatype PromiseResult<K> = PromiseResult(obj: Option<K>, error: Option<Error>)

  function Blank<K>(): PromiseResult<K> {
    PromiseResult(None, None)
  }

  /** Input `index` settled: fulfilled with a value, or rejected with an error. */
  datatype Event<K> = Fulfil(index: nat, value: Option<K>) | Reject(index: nat, error: Error)

  /** The state shared by the callbacks of one `all` or `any`: the `results` array, the counter
      `x` and the state of the aggregate promise. */
  datatype Fan<K> = Fan(results: seq<PromiseResult<K>>, x: nat, aggregate: State<seq<PromiseResult<K>>>)

  /** The state right after `all`/`any` returns for `n` inputs: `n` blank slots, a zero
      counter, and an aggregate that is already fulfilled with an empty array when `n` is 0. */
  function Start<K>(n: nat): (f: Fan<K>)
    ensures |f.results| == n && f.x == 0
    ensures forall i :: 0 <= i < n ==> f.results[i] == Blank()
    ensures n == 0 <==> !f.aggregate.IsPending()
    ensures n == 0 ==> f.aggregate == Fulfilled(Some([]))
  {
    Fan(seq(n, _ => Blank()), 0, if n == 0 then Fulfilled(Some([])) else Pending)
  }

  /** Every event names one of the `n` inputs. */
  ghost predicate Indexed<K>(n: nat, evs: seq<Event<K>>) {
    forall k :: 0 <= k < |evs| ==> evs[k].index < n
  }

  /** Every event names one of the `n` inputs, and no input settles twice. */
  ghost predicate WellFormed<K>(n: nat, evs: seq<Event<K>>) {
    && Indexed(n, evs)
    && forall j, k :: 0 <= j < k < |evs| ==> evs[j].index != evs[k].index
  }

  ghost predicate SomeRejection<K>(evs: seq<Event<K>>) {
    exists k :: 0 <= k < |evs| && evs[k].Reject?
  }

  /** The number of fulfilments among the events. */
  function Fulfilments<K>(evs: seq<Event<K>>): nat
    decreases |evs|
  {
    if evs == [] then 0
    else Fulfilments(evs[..|evs| - 1]) + (if evs[|evs| - 1].Fulfil? then 1 else 0)
  }

  /** The error of the earliest rejection. */
  ghost function FirstRejection<K>(evs: seq<Event<K>>): (e: Error)
    requires SomeRejection(evs)
    ensures exists k :: 0 <= k < |evs| && evs[k] == Reject(evs[k].index, e) && forall j :: 0 <= j < k ==> !evs[j].Reject?
    decreases |evs|
  {
    var prefix := evs[..|evs| - 1];
    if SomeRejection(prefix) then
      var e := FirstRejection(prefix);
      assert forall k :: 0 <= k < |prefix| ==> prefix[k] == evs[k];
      e
    else
      assert forall j :: 0 <= j < |prefix| ==> prefix[j] == evs[j];
      assert evs[|evs| - 1].Reject?;
      evs[|evs| - 1].error
  }

  /** Some slot holds a non-nil value. */
  predicate SomeObject<K>(rs: seq<PromiseResult<K>>) {
    exists k :: 0 <= k < |rs| && rs[k].obj.Some?
  }

  // ---------------------------------------------------------------------------------------------
  // all

  /** One callback of `all`. A fulfilment stores a non-nil value in its slot, increments the
      counter, and resolves the aggregate with the results once the counter reaches the number of
      inputs; a rejection rejects the aggregate (`catch(reject)`), which only a pending aggregate
      heeds. */
  function AllStep<K>(f: Fan<K>, ev: Event<K>): (g: Fan<K>)
    requires ev.index < |f.results|
    ensures |g.results| == |f.results|
    ensures forall j :: 0 <= j < |f.results| && j != ev.index ==> g.results[j] == f.results[j]
  {
    match ev
    case Fulfil(i, v) =>
      var rs := if v.Some? then f.results[i := f.results[i].(obj := v)] else f.results;
      var x := f.x + 1;
      Fan(rs, x, if x == |rs| then Settle(f.aggregate, Fulfilled(Some(rs))) else f.aggregate)
    case Reject(_, e) =>
      f.(aggregate := Settle(f.aggregate, Rejected(e)))
  }

  /** The state of `all` over `n` inputs after the events, in order. */
  function AllRun<K>(n: nat, evs: seq<Event<K>>): (f: Fan<K>)
    requires Indexed(n, evs)
    ensures |f.results| == n
    decreases |evs|
  {
    if evs == [] then Start(n)
    else AllStep(AllRun(n, evs[..|evs| - 1]), evs[|evs| - 1])
  }

  /** What slot `i` of `all` holds once input `i` has settled with `ev`. */
  function AllSlot<K>(ev: Event<K>): PromiseResult<K> {
    if ev.Fulfil? then PromiseResult(ev.value, None) else Blank()
  }

  // ---------------------------------------------------------------------------------------------
  // any

  /** One callback of `any`. Every settlement writes its own slot (a non-nil value, or the error
      with the value cleared) and increments the counter; the callback that brings the counter to
      the number of inputs settles the aggregate: a fulfilment resolves it with the results, a
      rejection resolves it if some slot holds a value and rejects it with its own error if not. */
  function AnyStep<K>(f: Fan<K>, ev: Event<K>): (g: Fan<K>)
    requires ev.index < |f.results|
    ensures |g.results| == |f.results|
    ensures forall j :: 0 <= j < |f.results| && j != ev.index ==> g.results[j] == f.results[j]
    ensures g.x == f.x + 1
  {
    match ev
    case Fulfil(i, v) =>
      var rs := if v.Some? then f.results[i := PromiseResult(v, None)] else f.results;
      var x := f.x + 1;
      Fan(rs, x, if x == |rs| then Settle(f.aggregate, Fulfilled(Some(rs))) else f.aggregate)
    case Reject(i, e) =>
      var rs := f.results[i := PromiseResult(None, Some(e))];
      var x := f.x + 1;
      Fan(rs, x,
          if x == |rs| then Settle(f.aggregate, if SomeObject(rs) then Fulfilled(Some(rs)) else Rejected(e))
          else f.aggregate)
  }

  /** The state of `any` over `n` inputs after the events, in order. */
  function AnyRun<K>(n: nat, evs: seq<Event<K>>): (f: Fan<K>)
    requires Indexed(n, evs)
    ensures |f.results| == n
    decreases |evs|
  {
    if evs == [] then Start(n)
    else AnyStep(AnyRun(n, evs[..|evs| - 1]), evs[|evs| - 1])
  }

  /** What slot `i` of `any` holds once input `i` has settled with `ev`. */
  function AnySlot<K>(ev: Event<K>): PromiseResult<K> {
    match ev
    case Fulfil(_, v) => if v.Some? then PromiseResult(v, None) else Blank()
    case Reject(_, e) => PromiseResult(None, Some(e))
  }

  // ---------------------------------------------------------------------------------------------
  // Counting settled inputs

  function IndexSet<K>(evs: seq<Event<K>>): set<nat> {
    set k | 0 <= k < |evs| :: evs[k].index
  }

  /** The indices of `n` inputs. */
  function Below(n: nat): set<nat>
    decreases n
  {
    if n == 0 then {} else Below(n - 1) + {n - 1}
  }

  lemma {:induction false} BelowSize(n: nat)
    ensures |Below(n)| == n
    ensures forall i: nat :: i in Below(n) <==> i < n
    decreases n
  {
    if n > 0 {
      BelowSize(n - 1);
    }
  }

  lemma {:induction false} IndexSetSize<K>(n: nat, evs: seq<Event<K>>)
    requires WellFormed(n, evs)
    ensures |IndexSet(evs)| == |evs|
    ensures IndexSet(evs) <= Below(n)
    decreases |evs|
  {
    BelowSize(n);
    if evs != [] {
      var prefix := evs[..|evs| - 1];
      var last := evs[|evs| - 1];
      assert WellFormed(n, prefix) by {
        assert forall k :: 0 <= k < |prefix| ==> prefix[k] == evs[k];
      }
      IndexSetSize(n, prefix);
      assert IndexSet(evs) == IndexSet(prefix) + {last.index} by {
        assert forall k :: 0 <= k < |prefix| ==> prefix[k] == evs[k];
      }
      assert last.index !in IndexSet(prefix) by {
        assert forall k :: 0 <= k < |prefix| ==> prefix[k].index != last.index;
      }
    }
  }

  /** No more inputs settle than there are inputs. */
  lemma HistoryBound<K>(n: nat, evs: seq<Event<K>>)
    requires WellFormed(n, evs)
    ensures |evs| <= n
  {
    IndexSetSize(n, evs);
    BelowSize(n);
    SubsetSize(IndexSet(evs), Below(n));
  }

  /** Once `n` events have been seen, every one of the `n` inputs has settled. */
  lemma Complete<K>(n: nat, evs: seq<Event<K>>, i: nat)
    requires WellFormed(n, evs) && |evs| == n && i < n
    ensures exists k :: 0 <= k < |evs| && evs[k].index == i
  {
    IndexSetSize(n, evs);
    BelowSize(n);
    SubsetSize(IndexSet(evs), Below(n));
    assert i in Below(n);
  }

  lemma SubsetSize(a: set<nat>, b: set<nat>)
    requires a <= b
    ensures |a| <= |b|
    ensures |a| == |b| ==> a == b
  {
    assert b == a + (b - a);
    assert a * (b - a) == {};
  }

  // ---------------------------------------------------------------------------------------------
  // Properties of all

  /** The counter of `all` counts fulfilments only. */
  lemma {:induction false} AllCounter<K>(n: nat, evs: seq<Event<K>>)
    requires Indexed(n, evs)
    ensures AllRun(n, evs).x == Fulfilments(evs)
    decreases |evs|
  {
    if evs != [] {
      AllCounter(n, evs[..|evs| - 1]);
    }
  }

  /** Slot `i` of `all` is written by input `i` alone, whatever the order: it holds input `i`'s
      value if that input fulfilled with a non-nil value, and stays blank otherwise. */
  lemma {:induction false} AllSlots<K>(n: nat, evs: seq<Event<K>>, i: nat)
    requires WellFormed(n, evs) && i < n
    ensures forall k :: 0 <= k < |evs| && evs[k].index == i ==> AllRun(n, evs).results[i] == AllSlot(evs[k])
    ensures (forall k :: 0 <= k < |evs| ==> evs[k].index != i) ==> AllRun(n, evs).results[i] == Blank()
    decreases |evs|
  {
    if evs != [] {
      var prefix := evs[..|evs| - 1];
      assert forall k :: 0 <= k < |prefix| ==> prefix[k] == evs[k];
      assert WellFormed(n, prefix);
      AllSlots(n, prefix, i);
    }
  }

  /** The aggregate of `all` stays pending while no input has rejected and some input has not
      settled; it resolves, with the results, exactly when all `n` inputs have fulfilled; and
      any rejection rejects it with the error of the first rejection, whatever comes later. */
  lemma {:induction false} AllAggregate<K>(n: nat, evs: seq<Event<K>>)
    requires n > 0 && WellFormed(n, evs)
    ensures !SomeRejection(evs) && |evs| < n ==> AllRun(n, evs).aggregate == Pending
    ensures !SomeRejection(evs) && |evs| == n ==> AllRun(n, evs).aggregate == Fulfilled(Some(AllRun(n, evs).results))
    ensures SomeRejection(evs) ==> AllRun(n, evs).aggregate == Rejected(FirstRejection(evs))
    decreases |evs|
  {
    HistoryBound(n, evs);
    if evs != [] {
      var prefix := evs[..|evs| - 1];
      var last := evs[|evs| - 1];
      assert forall k :: 0 <= k < |prefix| ==> prefix[k] == evs[k];
      assert WellFormed(n, prefix);
      AllAggregate(n, prefix);
      AllCounter(n, prefix);
      NoRejectionCounts(prefix);
      assert SomeRejection(evs) <==> SomeRejection(prefix) || last.Reject? by {
        if SomeRejection(evs) && !last.Reject? {
          var k :| 0 <= k < |evs| && evs[k].Reject?;
          assert k < |prefix| && prefix[k].Reject?;
        }
        if SomeRejection(prefix) {
          var k :| 0 <= k < |prefix| && prefix[k].Reject?;
          assert evs[k].Reject?;
        }
        if last.Reject? {
          assert evs[|evs| - 1].Reject?;
        }
      }
      if SomeRejection(prefix) {
        assert FirstRejection(evs) == FirstRejection(prefix);
        FulfilmentsBelowLength(prefix);
      }
    }
  }

  lemma {:induction false} NoRejectionCounts<K>(evs: seq<Event<K>>)
    ensures !SomeRejection(evs) ==> Fulfilments(evs) == |evs|
    decreases |evs|
  {
    if evs != [] {
      var prefix := evs[..|evs| - 1];
      if !SomeRejection(evs) {
        assert !SomeRejection(prefix) by {
          assert forall k :: 0 <= k < |prefix| ==> prefix[k] == evs[k];
        }
        assert !evs[|evs| - 1].Reject?;
      }
      NoRejectionCounts(prefix);
    }
  }

  lemma {:induction false} FulfilmentsBelowLength<K>(evs: seq<Event<K>>)
    ensures Fulfilments(evs) <= |evs|
    ensures SomeRejection(evs) ==> Fulfilments(evs) < |evs|
    decreases |evs|
  {
    if evs != [] {
      var prefix := evs[..|evs| - 1];
      FulfilmentsBelowLength(prefix);
      if SomeRejection(evs) && !evs[|evs| - 1].Reject? {
        var k :| 0 <= k < |evs| && evs[k].Reject?;
        assert k < |prefix| && prefix[k].Reject?;
      }
    }
  }

  /** When every input of `all` fulfils, in any order, the aggregate resolves with slot `i`
      holding input `i`'s value (nil when it fulfilled with nil). */
  lemma AllFulfilled<K>(n: nat, evs: seq<Event<K>>)
    requires n > 0 && WellFormed(n, evs) && |evs| == n && !SomeRejection(evs)
    ensures AllRun(n, evs).aggregate.IsFulfilled()
    ensures AllRun(n, evs).aggregate.value == Some(AllRun(n, evs).results)
    ensures forall k :: 0 <= k < n ==> AllRun(n, evs).results[evs[k].index] == PromiseResult(evs[k].value, None)
  {
    AllAggregate(n, evs);
    forall k | 0 <= k < n
      ensures AllRun(n, evs).results[evs[k].index] == PromiseResult(evs[k].value, None)
    {
      AllSlots(n, evs, evs[k].index);
      assert !evs[k].Reject?;
    }
  }

  // ---------------------------------------------------------------------------------------------
  // Properties of any

  /** Every settlement increments the counter of `any` exactly once, so it never exceeds the
      number of inputs. */
  lemma {:induction false} AnyCounter<K>(n: nat, evs: seq<Event<K>>)
    requires WellFormed(n, evs)
    ensures AnyRun(n, evs).x == |evs| <= n
    decreases |evs|
  {
    HistoryBound(n, evs);
    if evs != [] {
      var prefix := evs[..|evs| - 1];
      assert forall k :: 0 <= k < |prefix| ==> prefix[k] == evs[k];
      assert WellFormed(n, prefix);
      AnyCounter(n, prefix);
    }
  }

  /** Slot `i` of `any` is written by input `i` alone: a non-nil value with no error when it
      fulfilled with one, the error with no value when it rejected, blank otherwise. */
  lemma {:induction false} AnySlots<K>(n: nat, evs: seq<Event<K>>, i: nat)
    requires WellFormed(n, evs) && i < n
    ensures forall k :: 0 <= k < |evs| && evs[k].index == i ==> AnyRun(n, evs).results[i] == AnySlot(evs[k])
    ensures (forall k :: 0 <= k < |evs| ==> evs[k].index != i) ==> AnyRun(n, evs).results[i] == Blank()
    decreases |evs|
  {
    if evs != [] {
      var prefix := evs[..|evs| - 1];
      assert forall k :: 0 <= k < |prefix| ==> prefix[k] == evs[k];
      assert WellFormed(n, prefix);
      AnySlots(n, prefix, i);
    }
  }

  /** The aggregate of `any` is pending exactly until all `n` inputs have settled. Then, if the
      last input to settle fulfilled, it resolves with the results; if the last one rejected,
      it resolves with the results when some slot holds a value, and rejects with that last
      error when none does. */
  lemma {:induction false} AnyAggregate<K>(n: nat, evs: seq<Event<K>>)
    requires n > 0 && WellFormed(n, evs)
    ensures |evs| < n <==> AnyRun(n, evs).aggregate.IsPending()
    ensures |evs| == n && evs[n - 1].Fulfil? ==> AnyRun(n, evs).aggregate == Fulfilled(Some(AnyRun(n, evs).results))
    ensures |evs| == n && evs[n - 1].Reject? && SomeObject(AnyRun(n, evs).results) ==>
      AnyRun(n, evs).aggregate == Fulfilled(Some(AnyRun(n, evs).results))
    ensures |evs| == n && evs[n - 1].Reject? && !SomeObject(AnyRun(n, evs).results) ==>
      AnyRun(n, evs).aggregate == Rejected(evs[n - 1].error)
    decreases |evs|
  {
    HistoryBound(n, evs);
    AnyCounter(n, evs);
    if evs != [] {
      var prefix := evs[..|evs| - 1];
      assert forall k :: 0 <= k < |prefix| ==> prefix[k] == evs[k];
      assert WellFormed(n, prefix);
      AnyAggregate(n, prefix);
      AnyCounter(n, prefix);
    }
  }

  /** Some slot of `any` holds a value exactly when some input fulfilled with a non-nil value. */
  lemma AnyHasObject<K>(n: nat, evs: seq<Event<K>>)
    requires WellFormed(n, evs)
    ensures SomeObject(AnyRun(n, evs).results) <==> exists k :: 0 <= k < |evs| && evs[k].Fulfil? && evs[k].value.Some?
  {
    var rs := AnyRun(n, evs).results;
    if SomeObject(rs) {
      var i :| 0 <= i < |rs| && rs[i].obj.Some?;
      AnySlots(n, evs, i);
      var k :| 0 <= k < |evs| && evs[k].index == i;
      assert evs[k].Fulfil? && evs[k].value.Some?;
    }
    if exists k :: 0 <= k < |evs| && evs[k].Fulfil? && evs[k].value.Some? {
      var k :| 0 <= k < |evs| && evs[k].Fulfil? && evs[k].value.Some?;
      AnySlots(n, evs, evs[k].index);
      assert rs[evs[k].index].obj.Some?;
    }
  }

  /** Once all inputs of `any` have settled, in any order, the aggregate is fulfilled exactly
      when the last one fulfilled or some input fulfilled with a non-nil value; otherwise it is
      rejected with the error of the last input to settle. */
  lemma AnyOutcome<K>(n: nat, evs: seq<Event<K>>)
    requires n > 0 && WellFormed(n, evs) && |evs| == n
    ensures AnyRun(n, evs).aggregate.IsFulfilled() <==>
      evs[n - 1].Fulfil? || exists k :: 0 <= k < n && evs[k].Fulfil? && evs[k].value.Some?
    ensures AnyRun(n, evs).aggregate.IsFulfilled() ==> AnyRun(n, evs).aggregate.value == Some(AnyRun(n, evs).results)
    ensures AnyRun(n, evs).aggregate.IsRejected() ==> AnyRun(n, evs).aggregate.error == evs[n - 1].error
  {
    AnyAggregate(n, evs);
    AnyHasObject(n, evs);
  }

  // ---------------------------------------------------------------------------------------------
  // any, with a fulfilment with nil counted as a success

  /** Some slot records no error. Once every input has settled, such a slot is one whose input
      fulfilled, with a value or with nil. */
  predicate SomeSuccess<K>(rs: seq<PromiseResult<K>>) {
    exists k :: 0 <= k < |rs| && rs[k].error.None?
  }

  /** One callback of `any` with the final scan asking for a slot without an error instead of a
      slot with a non-nil object; everything else is `AnyStep`. */
  function IntendedAnyStep<K>(f: Fan<K>, ev: Event<K>): (g: Fan<K>)
    requires ev.index < |f.results|
    ensures g.results == AnyStep(f, ev).results && g.x == AnyStep(f, ev).x
  {
    var g := AnyStep(f, ev);
    if ev.Reject? && g.x == |g.results| then
      g.(aggregate := Settle(f.aggregate, if SomeSuccess(g.results) then Fulfilled(Some(g.results)) else Rejected(ev.error)))
    else g
  }

  /** The state of the corrected `any` over `n` inputs after the events, in order. */
  function IntendedAnyRun<K>(n: nat, evs: seq<Event<K>>): (f: Fan<K>)
    requires Indexed(n, evs)
    ensures |f.results| == n
    decreases |evs|
  {
    if evs == [] then Start(n)
    else IntendedAnyStep(IntendedAnyRun(n, evs[..|evs| - 1]), evs[|evs| - 1])
  }

  /** The correction changes only the verdict: the slots, the counter and the moment the
      aggregate settles are those of `any` as written. */
  lemma {:induction false} IntendedAnyAgrees<K>(n: nat, evs: seq<Event<K>>)
    requires Indexed(n, evs)
    ensures IntendedAnyRun(n, evs).results == AnyRun(n, evs).results
    ensures IntendedAnyRun(n, evs).x == AnyRun(n, evs).x
    ensures IntendedAnyRun(n, evs).aggregate.IsPending() <==> AnyRun(n, evs).aggregate.IsPending()
    decreases |evs|
  {
    if evs != [] {
      IntendedAnyAgrees(n, evs[..|evs| - 1]);
    }
  }

  /** With all `n` inputs settled, some slot is free of errors exactly when some input
      fulfilled, whether with a value or with nil. */
  lemma SuccessRecorded<K>(n: nat, evs: seq<Event<K>>)
    requires WellFormed(n, evs) && |evs| == n
    ensures SomeSuccess(AnyRun(n, evs).results) <==> exists k :: 0 <= k < n && evs[k].Fulfil?
  {
    var rs := AnyRun(n, evs).results;
    if SomeSuccess(rs) {
      var i :| 0 <= i < |rs| && rs[i].error.None?;
      Complete(n, evs, i);
      AnySlots(n, evs, i);
      var k :| 0 <= k < |evs| && evs[k].index == i;
      assert evs[k].Fulfil?;
    }
    if exists k :: 0 <= k < n && evs[k].Fulfil? {
      var k :| 0 <= k < n && evs[k].Fulfil?;
      AnySlots(n, evs, evs[k].index);
      assert rs[evs[k].index].error.None?;
    }
  }

  /** The corrected `any`: once all `n` inputs have settled, in any order, the aggregate is
      fulfilled, with the results, exactly when at least one input fulfilled; when none did,
      it is rejected with the error of the last input to settle. */
  lemma IntendedAnyOutcome<K>(n: nat, evs: seq<Event<K>>)
    requires n > 0 && WellFormed(n, evs) && |evs| == n
    ensures IntendedAnyRun(n, evs).aggregate.IsFulfilled() <==> exists k :: 0 <= k < n && evs[k].Fulfil?
    ensures IntendedAnyRun(n, evs).aggregate.IsFulfilled() ==>
      IntendedAnyRun(n, evs).aggregate.value == Some(IntendedAnyRun(n, evs).results)
    ensures !IntendedAnyRun(n, evs).aggregate.IsFulfilled() ==> IntendedAnyRun(n, evs).aggregate == Rejected(evs[n - 1].error)
  {
    var prefix := evs[..n - 1];
    assert forall k :: 0 <= k < |prefix| ==> prefix[k] == evs[k];
    assert WellFormed(n, prefix);
    AnyAggregate(n, prefix);
    AnyCounter(n, prefix);
    IntendedAnyAgrees(n, prefix);
    IntendedAnyAgrees(n, evs);
    SuccessRecorded(n, evs);
    assert evs[n - 1].Fulfil? ==> exists k :: 0 <= k < n && evs[k].Fulfil?;
  }

  /** The input order that tells the two apart: input 0 fulfils with nil, then input 1 rejects.
      `any` as written rejects, though an input succeeded; the corrected one is fulfilled. */
  lemma AnyNilFulfilmentLost(e: Error)
    ensures AnyRun<int>(2, [Fulfil(0, None), Reject(1, e)]).aggregate == Rejected(e)
    ensures IntendedAnyRun<int>(2, [Fulfil(0, None), Reject(1, e)]).aggregate
      == Fulfilled(Some([Blank(), PromiseResult(None, Some(e))]))
  {
    var evs: seq<Event<int>> := [Fulfil(0, None), Reject(1, e)];
    var first := [Fulfil(0, None)];
    assert evs[..1] == first && first[..0] == [];
    var start := Start<int>(2);
    assert start.results == [Blank(), Blank()];
    assert AnyRun(2, first) == AnyStep(start, Fulfil(0, None)) == Fan([Blank(), Blank()], 1, Pending);
    var rs := [Blank(), PromiseResult(None, Some(e))];
    assert AnyRun(2, evs).results == rs && AnyRun(2, evs).x == 2;
    assert !SomeObject(rs) by {
      assert forall k :: 0 <= k < |rs| ==> rs[k].obj.None?;
    }
    assert SomeSuccess(rs) by {
      assert rs[0].error.None?;
    }
  }
}
