# use-ask: the ask-and-await primitive, modelled in Dafny

`use-ask` turns "ask the user a question and wait for the answer" into a
promise: `await ask(payload)` opens a question, a prompt component shows it,
and the user's `ok(data)` or `cancel(reason)` settles the promise. There are two
implementations of the same single-slot question/answer machine, and both are
modelled here:

- `AskStore` (`packages/use-ask/src/ask-store.ts`), an observable store. Its
  current record `{key, props, asking, cancel, ok}` is replaced by a fresh record
  on every transition. It also holds a subscriber array, and `notify` calls each
  subscriber after a transition. Module `Store`, file `ask_store.dfy`.
- `useAsk` (`packages/use-ask/src/index.ts`), the component-local hook. Its one
  state cell is either empty or holds the resolving functions of the
  outstanding question and its mode. Module `UseAsk`, file `use_ask.dfy`.

Both have two answer modes. In throwing mode (`ask`), `ok(data)` fulfils the
promise with `data` and `cancel(reason)` rejects it with `reason`. In
non-throwing mode (`safeAsk`), the promise is always fulfilled, with
`{ok: true, data}` or `{ok: false, reason}`.

How the model is built:

- A promise is a `Promises.Deferred` object holding its settlement state
  (`Pending`, `Fulfilled(v)`, `Rejected(e)`). Its `Resolve` and `Reject` settle it
  only while it is pending, like the functions `Promise.withResolvers()` returns.
- An omitted `reason?` or `data?` is `Option.None`, i.e. `undefined`.
- A record is a `Store.Snapshot` object with constant fields. Its identity is
  what `getSnapshot` consumers compare.
- A record's `cancel`/`ok` functions are a `Store.Resolver`. It is either the
  empty stub or the closure over one question's promise and mode. Calling such a
  function is `AskStore.Cancel(c, reason)` or `AskStore.Ok(c, data)`, with `c`
  taken from whichever record the caller holds.
- A subscriber is a callback identity (`nat`). Each call `notify` makes is
  recorded in the store's `log`, together with the record the subscriber would
  read.
- `UseAsk.Settle` states in one place how an answer settles a promise in each
  mode. `UseAsk.Awaited` is its partner: what the awaiting code learns from the
  settled promise.

## Model

| member | source | states |
|---|---|---|
| `Promises.SettledIsFinal` | packages/use-ask/src/ask-store.ts:59-74 | once a question's promise is settled, any further `resolve`/`reject` call (from a closure kept in an old record) leaves it as it is |
| `Promises.FirstSettlementWins` | packages/use-ask/src/ask-store.ts:59-74 | in any series of resolving calls on a pending promise, the first decides the outcome, and the promise is no longer pending |
| `Promises.Deferred.Resolve` | packages/use-ask/src/ask-store.ts:53 | `resolve` fulfils a pending promise with the value and leaves a settled one unchanged |
| `Promises.Deferred.Reject` | packages/use-ask/src/ask-store.ts:53 | `reject` rejects a pending promise with the reason and leaves a settled one unchanged |
| `UseAsk.Settle` | packages/use-ask/src/index.ts:71-90 | non-throwing mode always resolves; throwing mode rejects exactly on `cancel`; the awaiting code recovers the very answer given (data or reason, `undefined` included) in both modes |
| `UseAsk.FirstAnswerWins` | packages/use-ask/src/index.ts:66-94 | however many `ok`/`cancel` calls reach one question, the awaiting code receives the first answer, and a non-throwing question ends fulfilled, never rejected |
| `UseAsk.AskHook.constructor` | packages/use-ask/src/index.ts:45 | the state cell starts empty (`{}`) and `asking` is false |
| `UseAsk.AskHook.Start` | packages/use-ask/src/index.ts:47-58 | creates a fresh pending promise and replaces the whole cell with its resolving functions and mode, so `asking` is true |
| `UseAsk.AskHook.End` | packages/use-ask/src/index.ts:60 | resets the cell to `{}`; `asking` is false |
| `UseAsk.AskHook.Ask` | packages/use-ask/src/index.ts:62 | starts a throwing-mode question; `asking` is true |
| `UseAsk.AskHook.SafeAsk` | packages/use-ask/src/index.ts:64 | starts a non-throwing question; `asking` is true |
| `UseAsk.AskHook.Cancel` | packages/use-ask/src/index.ts:66-79 | with no question outstanding nothing changes; otherwise the question's promise is settled as `Settle` says for a cancel with that reason, and the cell is empty again |
| `UseAsk.AskHook.Ok` | packages/use-ask/src/index.ts:81-94 | with no question outstanding nothing changes; otherwise the promise is settled as `Settle` says for an ok with that data, and the cell is empty again |
| `UseAsk.AskHook.Asking` | packages/use-ask/src/index.ts:99 | a definition: `asking` is `state.Waiting?`, i.e. `!!resolve && !!reject` in either mode; the constructor, `Start`, `End`, `Cancel` and `Ok` state its value |
| `UseAsk.HookStartsIdle` | packages/use-ask/src/use-ask.test.ts:11-20 | a fresh hook is not asking |
| `UseAsk.HookAskAndAnswer` | packages/use-ask/src/use-ask.test.ts:27-147 | for both modes and both answers, `asking` is true after asking and false after answering, and the awaiting code gets the answer, a non-throwing question never being rejected |
| `UseAsk.HookSecondAnswerIgnored` | packages/use-ask/src/index.ts:66-79 | after `ok(data)`, a `cancel` finds the cell empty: the promise stays fulfilled with the data and the hook stays idle |
| `UseAsk.HookSupersede` | packages/use-ask/src/index.ts:47-58 | a second question replaces the first in the cell; the first promise stays pending and the answer settles the second |
| `Store.SpliceStart` | packages/use-ask/src/ask-store.ts:32 | `splice` starts at a start index inside the array as given, counts a negative one from the end, and clamps to the array |
| `Store.IndexOf` | packages/use-ask/src/ask-store.ts:31 | `indexOf` is -1 exactly when the callback is absent, and otherwise the position of its first occurrence |
| `Store.SpliceOne` | packages/use-ask/src/ask-store.ts:32 | `splice(start, 1)` on a non-empty array with a start below its length removes exactly the one element at the normalised start, keeping the rest in order; on an empty array, or from a start at or past the end, it removes nothing |
| `Store.Unsubscribed` | packages/use-ask/src/ask-store.ts:30-33 | the unsubscribe closure removes exactly one subscriber from a non-empty list and none from an empty one, and never adds any |
| `Store.IndexOfPrefix` | packages/use-ask/src/ask-store.ts:31 | `indexOf` of a callback present in a prefix ignores whatever was appended after it |
| `Store.UnsubscribePresent` | packages/use-ask/src/ask-store.ts:30-33 | unsubscribing a registered callback removes exactly its first occurrence, one element, and keeps the other subscribers in order |
| `Store.UnsubscribeAbsent` | packages/use-ask/src/ask-store.ts:30-33 | unsubscribing a callback that is not registered removes the last subscriber (`splice(-1, 1)`), or nothing from an empty list |
| `Store.SubscribeThenUnsubscribe` | packages/use-ask/src/ask-store.ts:27-33 | subscribing and then running the returned closure restores the list when the callback was new; otherwise the earlier registration goes, so the list keeps the same callbacks but this one moves to the end and is notified last |
| `Store.UnsubscribeTwiceRemovesAnother` | packages/use-ask/src/ask-store.ts:30-33 | running one unsubscribe closure twice with `[a, b]` registered leaves no subscriber: the second run removes `b` |
| `Store.Calls` | packages/use-ask/src/ask-store.ts:36-38 | one notification calls every subscriber once, in list order, all of them seeing the same record |
| `Store.AskStore.constructor` | packages/use-ask/src/ask-store.ts:13-22 | a fresh store has key 0, the empty payload `{}`, `asking` false, stub `cancel`/`ok` and no subscribers |
| `Store.AskStore.GetSnapshot` | packages/use-ask/src/ask-store.ts:24 | returns the current record itself |
| `Store.AskStore.Subscribe` | packages/use-ask/src/ask-store.ts:27-29 | appends the callback to the end of the list and returns the closure that removes it; the record is untouched |
| `Store.AskStore.Unsubscribe` | packages/use-ask/src/ask-store.ts:30-33 | the list becomes `splice(indexOf(callback), 1)` of the old list; the record is untouched |
| `Store.AskStore.Notify` | packages/use-ask/src/ask-store.ts:36-38 | calls every subscriber exactly once, in list order, each seeing the current record |
| `Store.AskStore.End` | packages/use-ask/src/ask-store.ts:40-48 | installs a new record with the same key and payload, `asking` false and stub `cancel`/`ok`, then notifies every subscriber of that record |
| `Store.AskStore.Start` | packages/use-ask/src/ask-store.ts:52-79 | creates a fresh pending promise and installs a new record with key old key + 1, the payload, `asking` true and closures over that promise in the given mode, then notifies of that record; the record invariant (asking exactly when the closures are live) is kept |
| `Store.AskStore.Ask` | packages/use-ask/src/ask-store.ts:81 | `start` in throwing mode |
| `Store.AskStore.SafeAsk` | packages/use-ask/src/ask-store.ts:83 | `start` in non-throwing mode |
| `Store.AskStore.Cancel` | packages/use-ask/src/ask-store.ts:59-66 | a stub changes nothing and notifies no one; a live closure settles its own promise as `Settle` says for a cancel with that reason, then ends the store's current question |
| `Store.AskStore.Ok` | packages/use-ask/src/ask-store.ts:67-74 | a stub changes nothing and notifies no one; a live closure settles its own promise as `Settle` says for an ok with that data, then ends the store's current question |
| `Store.StoreAskAndAnswer` | packages/use-ask/src/ask-store.ts:52-83 | on a fresh store, `ask`/`safeAsk` then the record's `ok`/`cancel`: key 1, asking until answered, key kept afterwards, and the awaiting code receives the answer, a non-throwing question never being rejected |
| `Store.StoreSupersede` | packages/use-ask/src/ask-store.ts:55-58 | a second `ask` without an answer in between gets key first + 1; the first promise stays pending and the answer settles the second |
| `Store.StaleCancelEndsCurrentQuestion` | packages/use-ask/src/ask-store.ts:59-66 | a `cancel` kept from the first record rejects the first promise but ends the second question, whose promise stays pending |
| `Store.AnswersAfterEnd` | packages/use-ask/src/ask-store.ts:40-48 | after an answer, the stubs leave the record and the log unchanged; a closure kept from before the answer leaves the settled promise alone but installs a new record with the same key and notifies again |
| `Store.NotificationOrder` | packages/use-ask/src/ask-store.ts:24-48 | `getSnapshot` returns the same record until a transition; subscribers are called in subscription order with the record just installed; an unsubscribed callback is not called again |
| `Store.DoubleUnsubscribe` | packages/use-ask/src/ask-store.ts:30-33 | with `a` and `b` subscribed, running `a`'s unsubscribe closure twice empties the list, and `b` misses the next notification |

## Behaviour worth knowing

- Removing a subscriber: a caller might expect each subscription to be
  removable on its own and a second unsubscribe to do nothing. The code removes
  by value with `splice(indexOf(subscriber), 1)`. Once the callback is gone, `indexOf`
  gives -1 and a second unsubscribe removes the last subscriber. See
  `Store.UnsubscribeAbsent` and `Store.DoubleUnsubscribe`.
- A `cancel`/`ok` kept from an older record still calls the store's `end`. It
  therefore ends whichever question is current, which can be a later one
  (`Store.StaleCancelEndsCurrentQuestion`). After an answer it also installs a
  new record (`Store.AnswersAfterEnd`).
- Starting a question while one is outstanding abandons the earlier promise.
  It stays pending unless someone still holds its closures
  (`Store.StoreSupersede`, `UseAsk.HookSupersede`).

## Left out

- React integration: `create-ask.ts` wraps the store in `useSyncExternalStore`.
  It is not part of this model. It passes `initialPayload` to the store's
  constructor, which takes no argument, so `props` always starts as `{}`
  (`Store.AskStore.constructor`).
- React rendering in `useAsk`: state cells, batching, and closures that capture
  the state of an earlier render are not modelled. Each `setState` replaces the
  cell immediately, and `cancel`/`ok` read the current cell.
- Promise scheduling: `then` callbacks and the microtask queue are not modelled,
  and neither is the `Promise.withResolvers` polyfill the tests load. A promise
  is only its settlement state. Adoption of a thenable passed to `resolve` is not
  modelled: data is an opaque value.
- Promise capabilities: `Ask`/`SafeAsk` hand the caller the `Deferred` object
  itself, whose `Resolve`/`Reject` the caller could call, whereas JavaScript
  hands out only the promise. "A non-throwing question is never rejected" is
  therefore stated for each `Cancel`/`Ok` call and each answer series
  (`UseAsk.Settle`, `UseAsk.FirstAnswerWins`), not as an invariant of the store.
- Re-entrant subscribers: a subscriber is a callback identity whose call is
  recorded in `log`. A callback that calls back into the store during `notify`
  (and so changes the array `forEach` is walking) is not modelled.
- `Store.AskStore.Start`: `key` is an unbounded natural number. JavaScript
  numbers stop increasing by one past 2^53, which is not modelled.
- `asking` in `start` is computed as `!!resolve && !!reject`. Both functions
  always exist, so the model writes `true`.
- Type erasure: the casts `{} as P`, `reason as TReason` and `data as TData`
  have no runtime effect and are not modelled.
- Calling a closure with another store: a live `cancel`/`ok` may only be passed
  to the store that built it (the ghost set `issued` of closures, each with its
  own promise and mode), because a JavaScript closure captures its own store and
  its own `safe` flag. An unsubscribe `Subscription` is likewise
  meant for the store that returned it; the model does not enforce this.
