/** The observable store `AskStore` (packages/use-ask/src/ask-store.ts): a
    single-slot register for the current question, replaced by a fresh record on
    every transition, plus an array of subscriber callbacks that are notified
    after each transition. */
module Store {
  import opened Wrappers
  import opened Promises
  import opened UseAsk

  /** A subscriber callback, identified by its function reference. */
  type Callback = nat

  /** The `props` field: the store starts with the empty object `{}` cast to the
      payload type, and every question supplies its own payload. */
  datatype Payload<P> = EmptyRecord | Supplied(value: P)

  /** The `cancel` and `ok` functions of a record: the empty stubs `() => {}`, or
      the closures that `start` builds over one question's resolving functions
      and its mode (both also capture the store, see `AskStore.Cancel`). */
  datatype Resolver<D, R> = NoOp | Live(promise: Question<D, R>, safe: bool)
  {
    function Footprint(): set<object>
    {
      if Live? then {promise} else {}
    }
  }

  /** One record `{key, props, asking, cancel, ok}`. Its fields never change; the
      store installs a new record instead, so that a record's identity tells a
      subscriber whether anything changed. */
  class Snapshot<P, D, R> {
    const key: nat
    const props: Payload<P>
    const asking: bool
    const cancel: Resolver<D, R>
    const ok: Resolver<D, R>

    constructor (key: nat, props: Payload<P>, asking: bool, cancel: Resolver<D, R>, ok: Resolver<D, R>)
      ensures this.key == key && this.props == props && this.asking == asking
      ensures this.cancel == cancel && this.ok == ok
    {
      this.key, this.props, this.asking := key, props, asking;
      this.cancel, this.ok := cancel, ok;
    }

    /** `asking` holds exactly when `cancel` and `ok` are live closures over the
        same question. */
    ghost predicate WellFormed()
    {
      (asking <==> cancel.Live?) && cancel == ok
    }
  }

  /** The position `splice` starts at for a (possibly negative) start index:
      counted from the end when negative, clamped to `0..len`. */
  function SpliceStart(len: nat, start: int): (k: nat)
    ensures k <= len
    ensures 0 <= start <= len ==> k == start
    ensures start > len as int ==> k == len
    ensures start < -(len as int) ==> k == 0
    ensures -(len as int) <= start < 0 ==> k as int == len as int + start
  {
    if start < 0 then (if len + start < 0 then 0 else len + start)
    else if start > len then len
    else start
  }

  /** `s.splice(start, 1)`: the sequence left after removing the element at the
      normalised start position, if there is one. */
  function SpliceOne<T>(s: seq<T>, start: int): (r: seq<T>)
    ensures s == [] || start >= |s| ==> r == s
    ensures s != [] && start < |s| ==> var k := SpliceStart(|s|, start);
      k < |s| && r == s[..k] + s[k + 1..] && multiset(r) + multiset{s[k]} == multiset(s)
  {
    var k := SpliceStart(|s|, start);
    if k < |s| then
      assert s == s[..k] + [s[k]] + s[k + 1..];
      s[..k] + s[k + 1..]
    else s
  }

  /** `s.indexOf(x)`: the first position of `x`, or -1. */
  function IndexOf(s: seq<Callback>, x: Callback): (i: int)
    ensures -1 <= i < |s|
    ensures i == -1 <==> x !in s
    ensures 0 <= i ==> s[i] == x && x !in s[..i]
  {
    if s == [] then -1
    else if s[0] == x then 0
    else
      var j := IndexOf(s[1..], x);
      if j == -1 then -1 else j + 1
  }

  /** The subscriber list after the closure returned by `subscribe(subscriber)` ran. */
  function Unsubscribed(subscribers: seq<Callback>, subscriber: Callback): (r: seq<Callback>)
    ensures |r| == if subscribers == [] then 0 else |subscribers| - 1
    ensures multiset(r) <= multiset(subscribers)
  {
    SpliceOne(subscribers, IndexOf(subscribers, subscriber))
  }

  /** A registered callback: unsubscribing removes its first occurrence, exactly
      one element, and keeps every other subscriber in its order. */
  lemma UnsubscribePresent(subscribers: seq<Callback>, subscriber: Callback)
    requires subscriber in subscribers
    ensures |Unsubscribed(subscribers, subscriber)| == |subscribers| - 1
    ensures multiset(Unsubscribed(subscribers, subscriber)) == multiset(subscribers) - multiset{subscriber}
    ensures exists i :: 0 <= i < |subscribers| && subscribers[i] == subscriber && subscriber !in subscribers[..i] &&
                        Unsubscribed(subscribers, subscriber) == subscribers[..i] + subscribers[i + 1..]
  {
  }

  /** A callback that is not registered (already removed, say): `indexOf` gives -1
      and `splice(-1, 1)` removes the LAST subscriber, or nothing from an empty list. */
  lemma UnsubscribeAbsent(subscribers: seq<Callback>, subscriber: Callback)
    requires subscriber !in subscribers
    ensures Unsubscribed(subscribers, subscriber) == if subscribers == [] then [] else subscribers[..|subscribers| - 1]
  {
  }

  /** `indexOf` finds a callback in a prefix before looking at what follows. */
  lemma {:induction false} IndexOfPrefix(a: seq<Callback>, b: seq<Callback>, x: Callback)
    requires x in a
    ensures IndexOf(a + b, x) == IndexOf(a, x)
  {
    if a[0] != x {
      assert (a + b)[1..] == a[1..] + b;
      IndexOfPrefix(a[1..], b, x);
    }
  }

  /** Subscribing and then running the returned closure restores the list when
      the callback was not registered before. Otherwise the earlier registration
      goes instead, so the callback moves to the end of the list and is notified
      last from then on. */
  lemma {:induction false} SubscribeThenUnsubscribe(subscribers: seq<Callback>, subscriber: Callback)
    ensures multiset(Unsubscribed(subscribers + [subscriber], subscriber)) == multiset(subscribers)
    ensures subscriber !in subscribers ==> Unsubscribed(subscribers + [subscriber], subscriber) == subscribers
    ensures subscriber in subscribers ==>
      Unsubscribed(subscribers + [subscriber], subscriber) == Unsubscribed(subscribers, subscriber) + [subscriber]
  {
    var added := subscribers + [subscriber];
    var n := |subscribers|;
    if subscriber in subscribers {
      IndexOfPrefix(subscribers, [subscriber], subscriber);
      var i := IndexOf(subscribers, subscriber);
      calc {
        Unsubscribed(added, subscriber);
        SpliceOne(added, i);
        added[..i] + added[i + 1..];
        { assert added[..i] == subscribers[..i];
          assert added[i + 1..] == subscribers[i + 1..] + [subscriber]; }
        subscribers[..i] + subscribers[i + 1..] + [subscriber];
        SpliceOne(subscribers, i) + [subscriber];
      }
    } else {
      assert added[n] == subscriber && added[..n] == subscribers;
      var i := IndexOf(added, subscriber);
      assert i == n;
      assert Unsubscribed(added, subscriber) == added[..n];
    }
  }


  /** Calling the same unsubscribe closure twice is not harmless: with two
      different subscribers registered, the second call removes the other one. */
  lemma UnsubscribeTwiceRemovesAnother(a: Callback, b: Callback)
    requires a != b
    ensures Unsubscribed([a, b], a) == [b]
    ensures Unsubscribed(Unsubscribed([a, b], a), a) == []
  {
  }

  /** The call of one subscriber during a notification, with the record it would
      read from `getSnapshot()` at that moment. */
  datatype Call<P, D, R> = Call(subscriber: Callback, snapshot: Snapshot<P, D, R>)

  /** The calls one notification makes: every subscriber once, in list order. */
  function Calls<P, D, R>(subscribers: seq<Callback>, snapshot: Snapshot<P, D, R>): (calls: seq<Call<P, D, R>>)
    ensures |calls| == |subscribers|
    ensures forall i :: 0 <= i < |calls| ==> calls[i].subscriber == subscribers[i] && calls[i].snapshot == snapshot
  {
    seq(|subscribers|, i requires 0 <= i < |subscribers| => Call(subscribers[i], snapshot))
  }

  /** The closure returned by `subscribe`, identified by the callback it removes. */
  datatype Subscription = Subscription(subscriber: Callback)

  class AskStore<P, D, R> {
    /** The current record, returned by `getSnapshot`. */
    var store: Snapshot<P, D, R>
    var subscribers: seq<Callback>
    /** Every subscriber call made so far, in order. */
    var log: seq<Call<P, D, R>>
    /** The `cancel`/`ok` closures this store has built, each over its own
        promise and mode. */
    ghost var issued: set<Resolver<D, R>>

    ghost predicate Valid()
      reads this`store, this`issued
    {
      store.WellFormed() && (store.cancel.Live? ==> store.cancel in issued)
    }

    /** The record `end` installs, relative to the state before: same key and
        payload, not asking, stub closures, every subscriber notified of it. */
    twostate predicate Ended()
      reads this
    {
      fresh(store) &&
      store.key == old(store.key) && store.props == old(store.props) &&
      !store.asking && store.cancel == NoOp && store.ok == NoOp &&
      subscribers == old(subscribers) && issued == old(issued) &&
      log == old(log) + Calls(subscribers, store)
    }

    /** The record `start(safe, props)` installs for the fresh question `promise`:
        the next key, the payload, asking, closures over `promise` in mode `safe`,
        every subscriber notified of it. */
    twostate predicate Started(new promise: Question<D, R>, safe: bool, props: P)
      reads this, promise
    {
      fresh(promise) && promise.state == Pending && fresh(store) &&
      store.key == old(store.key) + 1 && store.props == Supplied(props) && store.asking &&
      store.cancel == Live(promise, safe) && store.ok == Live(promise, safe) &&
      subscribers == old(subscribers) && issued == old(issued) + {Live(promise, safe)} &&
      log == old(log) + Calls(subscribers, store)
    }

    constructor ()
      ensures Valid()
      ensures store.key == 0 && store.props == EmptyRecord && !store.asking
      ensures store.cancel == NoOp && store.ok == NoOp
      ensures subscribers == [] && log == [] && issued == {}
    {
      store := new Snapshot(0, EmptyRecord, false, NoOp, NoOp);
      subscribers := [];
      log := [];
      issued := {};
    }

    method GetSnapshot() returns (s: Snapshot<P, D, R>)
      ensures s == store
    {
      s := store;
    }

    /** `subscribe(subscriber)`: appends the callback and returns its unsubscribe closure. */
    method Subscribe(subscriber: Callback) returns (unsubscribe: Subscription)
      modifies this`subscribers
      ensures subscribers == old(subscribers) + [subscriber]
      ensures unsubscribe == Subscription(subscriber)
    {
      subscribers := subscribers + [subscriber];
      unsubscribe := Subscription(subscriber);
    }

    /** Runs an unsubscribe closure: `splice(indexOf(subscriber), 1)`. */
    method Unsubscribe(unsubscribe: Subscription)
      modifies this`subscribers
      ensures subscribers == Unsubscribed(old(subscribers), unsubscribe.subscriber)
    {
      var index := IndexOf(subscribers, unsubscribe.subscriber);
      subscribers := SpliceOne(subscribers, index);
    }

    /** `notify`: calls every subscriber, in order, each seeing the current record. */
    method Notify()
      modifies this`log
      ensures log == old(log) + Calls(subscribers, store)
    {
      for i := 0 to |subscribers|
        invariant log == old(log) + Calls(subscribers[..i], store)
      {
        assert Calls(subscribers[..i + 1], store) == Calls(subscribers[..i], store) + [Call(subscribers[i], store)];
        log := log + [Call(subscribers[i], store)];
      }
      assert subscribers[..|subscribers|] == subscribers;
    }

    /** `end`: keeps key and payload, clears `asking`, installs stubs, notifies. */
    method End()
      requires Valid()
      modifies this`store, this`log
      ensures Valid() && Ended()
    {
      store := new Snapshot(store.key, store.props, false, NoOp, NoOp);
      Notify();
    }

    /** `start(safe, props)`: opens a new question, superseding any outstanding
        one, and notifies. */
    method Start(safe: bool, props: P) returns (promise: Question<D, R>)
      requires Valid()
      modifies this
      ensures Valid() && Started(promise, safe, props)
    {
      promise := new Deferred();
      var live := Live(promise, safe);
      store := new Snapshot(store.key + 1, Supplied(props), true, live, live);
      issued := issued + {live};
      Notify();
    }

    method Ask(props: P) returns (promise: Question<D, R>)
      requires Valid()
      modifies this
      ensures Valid() && Started(promise, false, props)
    {
      promise := Start(false, props);
    }

    method SafeAsk(props: P) returns (promise: Question<D, R>)
      requires Valid()
      modifies this
      ensures Valid() && Started(promise, true, props)
    {
      promise := Start(true, props);
    }

    /** Calls a record's `cancel` function `c` with `reason`. A stub does nothing.
        A live closure settles its own question negatively for its mode and then
        ends the store's CURRENT question, which is a later one when `c` was
        taken from an older record. */
    method Cancel(c: Resolver<D, R>, reason: Option<R>)
      requires Valid()
      requires c.Live? ==> c in issued
      modifies this, c.Footprint()
      ensures Valid()
      ensures c.NoOp? ==> unchanged(this)
      ensures c.Live? ==> c.promise.state == Apply(old(c.promise.state), Settle(c.safe, CancelWith(reason)))
      ensures c.Live? ==> Ended()
    {
      match c
      case NoOp =>
      case Live(promise, safe) =>
        if safe {
          promise.Resolve(Tagged(Cancelled(reason)));
        } else {
          promise.Reject(reason);
        }
        End();
    }

    /** Calls a record's `ok` function `c` with `data`: like `Cancel`, but settles
        positively. */
    method Ok(c: Resolver<D, R>, data: Option<D>)
      requires Valid()
      requires c.Live? ==> c in issued
      modifies this, c.Footprint()
      ensures Valid()
      ensures c.NoOp? ==> unchanged(this)
      ensures c.Live? ==> c.promise.state == Apply(old(c.promise.state), Settle(c.safe, OkWith(data)))
      ensures c.Live? ==> Ended()
    {
      match c
      case NoOp =>
      case Live(promise, safe) =>
        if safe {
          promise.Resolve(Tagged(Confirmed(data)));
        } else {
          promise.Resolve(Bare(data));
        }
        End();
    }
  }

  /** `ask(props)` or `safeAsk(props)` on a fresh store followed by the record's
      `ok(data)` or `cancel(reason)`: the first question has key 1 and asks until
      answered; the awaiting code receives the answer in the shape of the mode,
      and a non-throwing question is never rejected. */
  method StoreAskAndAnswer<P, D, R>(safe: bool, props: P, answer: Answer<D, R>)
    returns (key: nat, askingBefore: bool, outcome: PromiseState<Fulfilment<D, R>, Option<R>>, askingAfter: bool, keyAfter: nat)
    ensures key == 1 && askingBefore
    ensures !askingAfter && keyAfter == key
    ensures outcome == Apply(Pending, Settle(safe, answer))
    ensures Awaited(safe, outcome) == Some(answer)
    ensures safe ==> outcome.Fulfilled?
  {
    var store := new AskStore<P, D, R>();
    var promise;
    if safe {
      promise := store.SafeAsk(props);
    } else {
      promise := store.Ask(props);
    }
    var s := store.GetSnapshot();
    key, askingBefore := s.key, s.asking;
    match answer {
      case OkWith(d) => store.Ok(s.ok, d);
      case CancelWith(r) => store.Cancel(s.cancel, r);
    }
    outcome := promise.state;
    askingAfter, keyAfter := store.store.asking, store.store.key;
  }

  /** Two questions without an answer in between: the second key is the first
      plus one, the first promise stays pending for good, and the answer goes to
      the second. */
  method StoreSupersede<P, D, R>(first: P, second: P, data: Option<D>)
    returns (k1: nat, k2: nat, firstState: PromiseState<Fulfilment<D, R>, Option<R>>, secondState: PromiseState<Fulfilment<D, R>, Option<R>>)
    ensures k2 == k1 + 1
    ensures firstState == Pending
    ensures secondState == Fulfilled(Bare(data))
  {
    var store := new AskStore<P, D, R>();
    var p1 := store.Ask(first);
    k1 := store.store.key;
    var p2 := store.Ask(second);
    k2 := store.store.key;
    store.Ok(store.store.ok, data);
    firstState, secondState := p1.state, p2.state;
  }

  /** A `cancel` kept from the first question's record, called while a second
      question is outstanding, rejects the first promise and ends the SECOND
      question, whose promise then stays pending. */
  method StaleCancelEndsCurrentQuestion<P, D, R>(first: P, second: P, reason: Option<R>)
    returns (firstState: PromiseState<Fulfilment<D, R>, Option<R>>, secondState: PromiseState<Fulfilment<D, R>, Option<R>>, asking: bool, props: Payload<P>)
    ensures firstState == Rejected(reason)
    ensures secondState == Pending
    ensures !asking && props == Supplied(second)
  {
    var store := new AskStore<P, D, R>();
    var p1 := store.Ask(first);
    var s1 := store.GetSnapshot();
    var p2 := store.Ask(second);
    store.Cancel(s1.cancel, reason);
    firstState, secondState := p1.state, p2.state;
    asking, props := store.store.asking, store.store.props;
  }

  /** After an answer the record holds stubs: calling them changes nothing and
      notifies no one. Calling a closure kept from before the answer leaves the
      settled promise alone, but ends the question again, installing a new
      record with the same key and notifying once more. */
  method AnswersAfterEnd<P, D, R>(props: P, data: Option<D>, reason: Option<R>, subscriber: Callback)
    returns (outcome: PromiseState<Fulfilment<D, R>, Option<R>>, stubsChangedRecord: bool, staleChangedRecord: bool, sameKey: bool, calls: nat)
    ensures outcome == Fulfilled(Bare(data))
    ensures !stubsChangedRecord && staleChangedRecord && sameKey
    ensures calls == 3
  {
    var store := new AskStore<P, D, R>();
    var _ := store.Subscribe(subscriber);
    var promise := store.Ask(props);
    var s1 := store.GetSnapshot();
    store.Ok(s1.ok, data);
    var s2 := store.GetSnapshot();
    store.Cancel(s2.cancel, reason);
    store.Ok(s2.ok, data);
    var s3 := store.GetSnapshot();
    store.Cancel(s1.cancel, reason);
    var s4 := store.GetSnapshot();
    outcome := promise.state;
    stubsChangedRecord, staleChangedRecord, sameKey := s3 != s2, s4 != s3, s4.key == s3.key;
    calls := |store.log|;
  }

  /** A fresh store with callbacks `a` and `b` subscribed, in that order, and
      the unsubscribe closure of `a`; `getSnapshot` still returns the initial record. */
  method SubscribeTwo<P, D, R>(a: Callback, b: Callback)
    returns (store: AskStore<P, D, R>, ua: Subscription, s0: Snapshot<P, D, R>)
    ensures fresh(store) && store.Valid() && store.store == s0 && !s0.asking && s0.key == 0
    ensures store.subscribers == [a, b] && store.log == [] && ua == Subscription(a)
  {
    store := new AskStore<P, D, R>();
    s0 := store.GetSnapshot();
    ua := store.Subscribe(a);
    var _ := store.Subscribe(b);
  }

  /** Runs the unsubscribe closure of `a` on a store whose subscribers are `[a, b]`. */
  method UnsubscribeFirst<P, D, R>(store: AskStore<P, D, R>, a: Callback, b: Callback, ua: Subscription)
    requires a != b && store.subscribers == [a, b] && ua == Subscription(a)
    modifies store`subscribers
    ensures store.subscribers == [b]
  {
    UnsubscribeTwiceRemovesAnother(a, b);
    store.Unsubscribe(ua);
  }

  /** Subscribers are notified in subscription order, each with the record just
      installed; `getSnapshot` returns the same record until a transition; an
      unsubscribed callback is not notified again. */
  method NotificationOrder<P, D, R>(a: Callback, b: Callback, props: P, data: Option<D>)
    returns (log: seq<Call<P, D, R>>, s0: Snapshot<P, D, R>, s1: Snapshot<P, D, R>, s2: Snapshot<P, D, R>)
    requires a != b
    ensures s0 != s1 && s1 != s2 && s0 != s2
    ensures s1.asking && !s2.asking && s2.key == s1.key == s0.key + 1
    ensures log == [Call(a, s1), Call(b, s1), Call(b, s2)]
  {
    var store, ua;
    store, ua, s0 := SubscribeTwo<P, D, R>(a, b);
    var _ := store.Ask(props);
    s1 := store.GetSnapshot();
    assert store.log == [Call(a, s1), Call(b, s1)];
    UnsubscribeFirst(store, a, b, ua);
    store.Ok(s1.ok, data);
    s2 := store.GetSnapshot();
    log := store.log;
  }

  /** Running the same unsubscribe closure twice removes a different subscriber
      the second time, which then misses the next notification. */
  method DoubleUnsubscribe<P, D, R>(a: Callback, b: Callback, props: P)
    returns (remaining: seq<Callback>, calls: nat)
    requires a != b
    ensures remaining == [] && calls == 0
  {
    var store, ua, _ := SubscribeTwo<P, D, R>(a, b);
    UnsubscribeFirst(store, a, b, ua);
    UnsubscribeTwiceRemovesAnother(a, b);
    store.Unsubscribe(ua);
    assert store.subscribers == [];
    var _ := store.Ask(props);
    remaining, calls := store.subscribers, |store.log|;
  }
}
