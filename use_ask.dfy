/** The component-local hook `useAsk` (packages/use-ask/src/index.ts) and the answer
    semantics it shares with `AskStore`: a single state cell that is either empty
    (`{}`) or holds the resolving functions of one outstanding question together
    with its mode. Each `setState` is modelled as an immediate replacement of the
    cell; React rendering, batching and stale render-time closures are not. */
module UseAsk {
  import opened Wrappers
  import opened Promises

  /** `UseAskResult`: `{ok: true, data}` is `Confirmed(data)`,
      `{ok: false, reason}` is `Cancelled(reason)`. */
  datatype UseAskResult<D, R> = Confirmed(data: Option<D>) | Cancelled(reason: Option<R>)

  /** The value a question's promise is fulfilled with: the data itself in
      throwing mode (`ask`), a `UseAskResult` in non-throwing mode (`safeAsk`). */
  datatype Fulfilment<D, R> = Bare(data: Option<D>) | Tagged(result: UseAskResult<D, R>)

  /** The promise of one question; it is only ever rejected with a reason. */
  type Question<D, R> = Deferred<Fulfilment<D, R>, Option<R>>

  /** What the person answering did: called `ok(data)` or `cancel(reason)`. */
  datatype Answer<D, R> = OkWith(data: Option<D>) | CancelWith(reason: Option<R>)

  /** The resolving call that `ok` or `cancel` makes on the question's promise,
      in non-throwing (`safe`) or throwing mode. */
  function Settle<D, R>(safe: bool, a: Answer<D, R>): (s: Settlement<Fulfilment<D, R>, Option<R>>)
    ensures safe ==> s.ResolveWith?
    ensures !safe ==> (s.RejectWith? <==> a.CancelWith?)
    ensures Awaited(safe, Apply(Pending, s)) == Some(a)
  {
    match a
    case OkWith(d) => if safe then ResolveWith(Tagged(Confirmed(d))) else ResolveWith(Bare(d))
    case CancelWith(r) => if safe then ResolveWith(Tagged(Cancelled(r))) else RejectWith(r)
  }

  /** What the code awaiting a question learns from its promise: in throwing mode
      the awaited data or the caught rejection reason, in non-throwing mode the
      `ok` flag of the result with its data or reason. `None` while the promise
      is pending, or when its value does not have the shape of the mode. */
  function Awaited<D, R>(safe: bool, st: PromiseState<Fulfilment<D, R>, Option<R>>): Option<Answer<D, R>>
  {
    match st
    case Pending => None
    case Fulfilled(Bare(d)) => if safe then None else Some(OkWith(d))
    case Fulfilled(Tagged(Confirmed(d))) => if safe then Some(OkWith(d)) else None
    case Fulfilled(Tagged(Cancelled(r))) => if safe then Some(CancelWith(r)) else None
    case Rejected(r) => if safe then None else Some(CancelWith(r))
  }

  /** The resolving calls made by a series of `ok`/`cancel` calls on one question. */
  function Settles<D, R>(safe: bool, answers: seq<Answer<D, R>>): seq<Settlement<Fulfilment<D, R>, Option<R>>>
  {
    seq(|answers|, i requires 0 <= i < |answers| => Settle(safe, answers[i]))
  }

  /** However many times a question's `ok`/`cancel` functions are called, the
      awaiting code receives the first answer, and a non-throwing question is
      never rejected. */
  lemma {:induction false} FirstAnswerWins<D, R>(safe: bool, answers: seq<Answer<D, R>>)
    requires answers != []
    ensures Awaited(safe, ApplyAll(Pending, Settles(safe, answers))) == Some(answers[0])
    ensures safe ==> ApplyAll(Pending, Settles(safe, answers)).Fulfilled?
  {
    var ss := Settles(safe, answers);
    FirstSettlementWins(ss);
    assert ss[0] == Settle(safe, answers[0]);
  }

  /** `UseAskState`: `{}` is `Idle`; `{resolve, reject, safe}` is
      `Waiting(promise, safe)`, the resolving functions being those of `promise`. */
  datatype UseAskState<D, R> = Idle | Waiting(promise: Question<D, R>, safe: bool)
  {
    function Footprint(): set<object>
    {
      if Waiting? then {promise} else {}
    }
  }

  /** The state and callbacks of one `useAsk()` hook instance. */
  class AskHook<D, R> {
    var state: UseAskState<D, R>

    constructor ()
      ensures state == Idle && !Asking()
    {
      state := Idle;
    }

    /** `asking` is `!!resolve && !!reject`: both functions are stored in either mode. */
    predicate Asking()
      reads this
    {
      state.Waiting?
    }

    method Start(safe: bool) returns (promise: Question<D, R>)
      modifies this
      ensures fresh(promise) && promise.state == Pending
      ensures state == Waiting(promise, safe) && Asking()
    {
      promise := new Deferred();
      state := Waiting(promise, safe);
    }

    method End()
      modifies this
      ensures state == Idle && !Asking()
    {
      state := Idle;
    }

    method Ask() returns (promise: Question<D, R>)
      modifies this
      ensures fresh(promise) && promise.state == Pending
      ensures state == Waiting(promise, false) && Asking()
    {
      promise := Start(false);
    }

    method SafeAsk() returns (promise: Question<D, R>)
      modifies this
      ensures fresh(promise) && promise.state == Pending
      ensures state == Waiting(promise, true) && Asking()
    {
      promise := Start(true);
    }

    /** `cancel(reason?)`: nothing when no question is outstanding; otherwise
        settles the question negatively for its mode and empties the cell. */
    method Cancel(reason: Option<R>)
      modifies this, state.Footprint()
      ensures old(state).Idle? ==> unchanged(this)
      ensures old(state).Waiting? ==>
        old(state).promise.state == Apply(old(state.promise.state), Settle(old(state).safe, CancelWith(reason)))
      ensures old(state).Waiting? ==> state == Idle && !Asking()
    {
      if state.Idle? {
        return;
      }
      var promise, safe := state.promise, state.safe;
      if safe {
        promise.Resolve(Tagged(Cancelled(reason)));
      } else {
        promise.Reject(reason);
      }
      End();
    }

    /** `ok(data?)`: nothing when no question is outstanding; otherwise settles
        the question positively for its mode and empties the cell. */
    method Ok(data: Option<D>)
      modifies this, state.Footprint()
      ensures old(state).Idle? ==> unchanged(this)
      ensures old(state).Waiting? ==>
        old(state).promise.state == Apply(old(state.promise.state), Settle(old(state).safe, OkWith(data)))
      ensures old(state).Waiting? ==> state == Idle && !Asking()
    {
      if state.Idle? {
        return;
      }
      var promise, safe := state.promise, state.safe;
      if safe {
        promise.Resolve(Tagged(Confirmed(data)));
      } else {
        promise.Resolve(Bare(data));
      }
      End();
    }
  }

  /** A fresh hook is not asking. */
  method HookStartsIdle<D, R>() returns (asking: bool)
    ensures !asking
  {
    var hook := new AskHook<D, R>();
    asking := hook.Asking();
  }

  /** `ask()`/`safeAsk()` followed by `ok(data)` or `cancel(reason)`: the hook is
      asking in between and not afterwards, and the awaiting code receives the
      answer in the shape of the mode; a non-throwing question is never rejected. */
  method HookAskAndAnswer<D, R>(safe: bool, answer: Answer<D, R>)
    returns (askingBefore: bool, outcome: PromiseState<Fulfilment<D, R>, Option<R>>, askingAfter: bool)
    ensures askingBefore && !askingAfter
    ensures outcome == Apply(Pending, Settle(safe, answer))
    ensures Awaited(safe, outcome) == Some(answer)
    ensures safe ==> outcome.Fulfilled?
  {
    var hook := new AskHook<D, R>();
    var promise;
    if safe {
      promise := hook.SafeAsk();
    } else {
      promise := hook.Ask();
    }
    askingBefore := hook.Asking();
    match answer {
      case OkWith(d) => hook.Ok(d);
      case CancelWith(r) => hook.Cancel(r);
    }
    outcome := promise.state;
    askingAfter := hook.Asking();
  }

  /** Once a question is answered, a second `cancel` finds the cell empty and
      changes neither the hook nor the settled promise. */
  method HookSecondAnswerIgnored<D, R>(data: Option<D>, reason: Option<R>)
    returns (outcome: PromiseState<Fulfilment<D, R>, Option<R>>, asking: bool)
    ensures outcome == Fulfilled(Bare(data)) && !asking
  {
    var hook := new AskHook<D, R>();
    var promise := hook.Ask();
    hook.Ok(data);
    hook.Cancel(reason);
    outcome := promise.state;
    asking := hook.Asking();
  }

  /** Starting a question while one is outstanding replaces the cell: the first
      promise loses its resolving functions and stays pending, and the answer
      goes to the second. */
  method HookSupersede<D, R>(data: Option<D>)
    returns (first: PromiseState<Fulfilment<D, R>, Option<R>>, second: PromiseState<Fulfilment<D, R>, Option<R>>)
    ensures first == Pending
    ensures second == Fulfilled(Tagged(Confirmed(data)))
  {
    var hook := new AskHook<D, R>();
    var p1 := hook.Ask();
    var p2 := hook.SafeAsk();
    hook.Ok(data);
    first, second := p1.state, p2.state;
  }
}
