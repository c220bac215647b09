/** The part of JavaScript's promise machinery that the ask primitive relies on:
    `Promise.withResolvers()` hands out a pending promise together with its
    `resolve` and `reject` functions, and only the first of their calls settles
    the promise; every later call is ignored. Scheduling of `then` callbacks
    (microtasks) is not modelled: a promise is its settlement state. */
module Promises {

  datatype PromiseState<T, E> = Pending | Fulfilled(value: T) | Rejected(reason: E)

  /** A call of one of the two resolving functions. */
  datatype Settlement<T, E> = ResolveWith(value: T) | RejectWith(reason: E)

  /** The state a promise is in after one resolving call. */
  function Apply<T, E>(st: PromiseState<T, E>, s: Settlement<T, E>): PromiseState<T, E>
  {
    if !st.Pending? then st
    else match s
      case ResolveWith(v) => Fulfilled(v)
      case RejectWith(e) => Rejected(e)
  }

  /** The state a promise is in after a series of resolving calls, in order. */
  function ApplyAll<T, E>(st: PromiseState<T, E>, ss: seq<Settlement<T, E>>): PromiseState<T, E>
    decreases ss
  {
    if ss == [] then st else ApplyAll(Apply(st, ss[0]), ss[1..])
  }

  /** A settled promise never changes again, whatever is called afterwards. */
  lemma {:induction false} SettledIsFinal<T, E>(st: PromiseState<T, E>, ss: seq<Settlement<T, E>>)
    requires !st.Pending?
    ensures ApplyAll(st, ss) == st
    decreases ss
  {
    if ss != [] {
      SettledIsFinal(Apply(st, ss[0]), ss[1..]);
    }
  }

  /** The first resolving call decides the outcome of a pending promise. */
  lemma {:induction false} FirstSettlementWins<T, E>(ss: seq<Settlement<T, E>>)
    requires ss != []
    ensures ApplyAll(Pending, ss) == Apply(Pending, ss[0])
    ensures !ApplyAll(Pending, ss).Pending?
  {
    SettledIsFinal(Apply(Pending, ss[0]), ss[1..]);
  }

  /** A promise together with its resolving functions, as handed out by
      `Promise.withResolvers()`. */
  class Deferred<T, E> {
    var state: PromiseState<T, E>

    constructor ()
      ensures state == Pending
    {
      state := Pending;
    }

    /** The `resolve` function: fulfils the promise unless it is already settled. */
    method Resolve(v: T)
      modifies this
      ensures state == Apply(old(state), ResolveWith(v))
    {
      if state.Pending? {
        state := Fulfilled(v);
      }
    }

    /** The `reject` function: rejects the promise unless it is already settled. */
    method Reject(e: E)
      modifies this
      ensures state == Apply(old(state), RejectWith(e))
    {
      if state.Pending? {
        state := Rejected(e);
      }
    }
  }
}
