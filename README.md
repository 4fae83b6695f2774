# generic-store in Dafny

A model of the store engine of generic-store: a small synchronous state
container. A store holds a raw state (`dataState`) built by an initializer,
a merged state (`state`) that is the raw state with computed values spread
over it, an ordered list of global subscribers and, per key, ordered lists
of key-scoped subscribers. `set` spreads a partial update over the raw
state, rebuilds the merged state and notifies the global subscribers and
then the subscribers of each changed key. `reset` re-initialises the raw
state. A registry of all stores lets `resetAllStores` reset each of them.
The earlier variant in `createStore.ts`, a store whose one state object is
changed in place, is modelled beside it.

Files:

- `entries.dfy` (module `Entries`): a JavaScript object as its entry list;
  `Object.fromEntries` and the spread `{ ...a, ...b }`.
- `subscribers.dfy` (module `Subscribers`): subscriber arrays, the
  notification loop as a log of calls, `indexOf`, `splice(start, 1)` and the
  unsubscribe closure `splice(indexOf(cb), 1)`.
- `store.dfy` (module `GenericStore`): `src/index.ts` — the merged state,
  the key-scoped notification order, the class `Store` and the class
  `Registry` that stands for the module-level `stores` array.
- `legacy_store.dfy` (module `LegacyStore`): `createStore.ts`.
- `scenarios.dfy` (module `Scenarios`): small client methods of this model's
  own (not taken from the repository's tests) that use only the contracts:
  a counter with a computed `double`, a global subscriber before and after
  unsubscribing, a key-scoped subscriber, and the shared state object of the
  earlier store. Every store in them is made by `Registry.CreateStore`, as
  `createStore` registers every store it makes (src/index.ts:111).

How the model stands in for the JavaScript:

- A state is a `map<string, V>` over an abstract value type `V`. An object
  passed in as `changes`, and the computed configuration, are entry lists
  `seq<(string, X)>` in key order; `UniqueKeys` says that a key occurs once,
  as in any object.
- Subscribers are opaque identities `S` compared by equality, as the source
  compares callbacks by reference. Calling a subscriber appends
  `Call(subscriber, argument)` to the store's `calls` log; the contracts
  state exactly which calls a method adds, in which order, with which state.
- Computed functions and `init` are total Dafny functions.
- An unsubscribe closure is a value (`Unsubscriber`) that the store's
  `Unsubscribe` method runs.
- The store keeps its merged state as a value, so a new merged state never
  aliases an earlier one. The earlier store keeps its state in a
  `StateObject` class, so the aliasing of that store is visible: the store
  holds the caller's object and every subscriber gets that same object.

Two behaviours of the code that a user of the store may not expect, both
modelled as written:

- `reset` (src/index.ts:79) only reassigns `dataState`. The merged state is
  not rebuilt, so `state` keeps the value of the last `set` (or of creation)
  until the next `set`, and nobody is notified.
  `Store.Reset` and `Registry.ResetAllStores` state this.
- An unsubscribe closure (src/index.ts:97-100, 107; createStore.ts:35)
  that runs after its callback is gone makes
  `indexOf` give -1, and `splice(-1, 1)` removes the LAST subscriber of that
  list. `Remove` models this quirk, and `RemoveTwice` shows that running a
  handle twice drops a different subscriber.

## Model

| member | source | states |
|---|---|---|
| `Entries.FromEntriesKeys` | src/index.ts:55 | the object `Object.fromEntries` builds has exactly the keys its entry list names |
| `Entries.FromEntriesLast` | src/index.ts:55 | the last entry for a key decides that key's value |
| `Entries.FromEntriesUnique` | src/index.ts:52-55 | with no key repeated, every entry's value is in the object under its key |
| `Entries.FromEntriesAppend` | src/index.ts:82 | building from two lists in a row equals spreading the second list's object over the first's |
| `Entries.Spread` | src/index.ts:82 | the spread `{ ...dataState, ...changes }` has the keys of both; a changed key takes its new value, every other key keeps its old one |
| `Entries.SpreadTwice` | src/index.ts:82 | two `set` merges in a row are one merge of both change lists in order, so the raw state after several sets is the initial one with all changes applied in order |
| `Subscribers.CallsFor` | src/index.ts:63-67 | the notification loop calls every subscriber once, in list order, all with the same state |
| `Subscribers.CallsForMembership` | src/index.ts:63-67 | a subscriber gets a call from the loop exactly when it is in the list, and with that state |
| `Subscribers.IndexOf` | src/index.ts:99 | `indexOf` gives the first position of the callback, or -1 exactly when it is absent |
| `Subscribers.Remove` | src/index.ts:97-100 | unsubscribe removes the first occurrence of a present callback and keeps the others in order; for an absent one it removes the last entry (nothing on an empty list) |
| `Subscribers.RemoveKeepsNoDuplicates` | src/index.ts:95-100 | on a duplicate-free list, unsubscribing keeps it duplicate-free and the callback is gone |
| `Subscribers.RemoveTwice` | src/index.ts:97-100 | running the same unsubscribe handle twice removes another subscriber, the one that was last |
| `GenericStore.MergedState` | src/index.ts:51-57 | the merged state has the raw keys and the computed keys; each computed key holds its function of the raw state, also over a raw key of the same name; other raw keys keep their values |
| `GenericStore.MergedStateWithoutComputed` | src/index.ts:43-44 | without a `computed` option the merged state equals the raw state |
| `GenericStore.NamedCallsMembership` | src/index.ts:69-87 | the key-scoped calls of a `set` go to exactly the subscribers listed under one of the changed keys, with the new state |
| `GenericStore.KeyedSubscriberNeedsLiteralKey` | src/index.ts:85-86 | a subscriber registered under one key only is called by a `set` if and only if that key is literally among the changed keys (computed keys are not tracked) |
| `GenericStore.UnsubscribedReceivesNothing` | src/index.ts:107 | once its handle has run, a global subscriber gets no call from the next notification loop |
| `GenericStore.Store.constructor` | src/index.ts:39-77 | the raw state is `init()`, the merged state is its merge with the computed values, no subscriptions and no calls yet |
| `GenericStore.Store.UpdateMergedState` | src/index.ts:59-61 | `state` becomes the merge of the current raw state |
| `GenericStore.Store.NotifySubscribers` | src/index.ts:63-67 | appends one call per global subscriber, in order, with `state` |
| `GenericStore.Store.NotifyNamedSubscribers` | src/index.ts:69-74 | appends one call per subscriber of the key, in order, with `state`; nothing for a key without a list |
| `GenericStore.Store.NotifyChangedKeys` | src/index.ts:85-87 | appends the key-scoped calls of each changed key, in key order |
| `GenericStore.Store.Reset` | src/index.ts:79 | the raw state is `init()` again; merged state, subscriptions and log are untouched |
| `GenericStore.Store.Set` | src/index.ts:81-88 | the raw state is the old one with the changes spread over it, the merged state is rebuilt from it, and the log grows by the global calls followed by the key-scoped calls of the changed keys, all with the new state |
| `GenericStore.Store.Subscribe` | src/index.ts:90-101 | a duplicate changes nothing and returns no handle; otherwise the callback is appended to its key's list (created if missing), other keys are untouched, nothing is called, and a handle is returned |
| `GenericStore.Store.SubscribeAll` | src/index.ts:103-108 | a duplicate changes nothing, is not called and gets no handle; otherwise it is appended, called once with the current state, and gets a handle |
| `GenericStore.Store.Unsubscribe` | src/index.ts:97-107 | runs a handle: the handle's list loses the callback as `Remove` describes, every other list is unchanged, and no list gains a duplicate |
| `GenericStore.Registry.constructor` | src/index.ts:30 | the registry starts empty |
| `GenericStore.Registry.CreateStore` | src/index.ts:39-114 | a fresh store, set up as its constructor says, is appended to the registry |
| `GenericStore.Registry.ResetAllStores` | src/index.ts:116-120 | every registered store's raw state is `init()` again; merged states, subscriptions and logs are untouched |
| `LegacyStore.Store.constructor` | createStore.ts:13-19 | the store's state is the very object passed in; no subscribers and no calls |
| `LegacyStore.Store.Notify` | createStore.ts:16 | appends one call per subscriber, in order, each with the state object |
| `LegacyStore.Store.Set` | createStore.ts:26-29 | the state object itself is changed: changed keys take their new values, others keep theirs; then every subscriber is called once, in order, with that object |
| `LegacyStore.Store.Subscribe` | createStore.ts:31-36 | a duplicate changes nothing, is not called and gets no handle; otherwise it is appended, called once with the state object, and gets a handle |
| `LegacyStore.Store.Unsubscribe` | createStore.ts:35 | the list loses the callback as `Remove` describes and stays duplicate-free |

## Left out

- `createReactHook` in both files: a React adapter (`useState`, `useEffect`), outside the store engine.
- `update` in createStore.ts: an asynchronous updater that swallows exceptions; neither concurrency nor exceptions are modelled.
- src/draft.ts: an example caller of the public API.
- Running user code: subscribers are identities and their calls are logged; computed functions and `init` are total functions, so exceptions thrown by user code are not modelled.
- Re-entrancy: a callback that calls `set`, `subscribe` or an unsubscribe handle while a notification loop runs.
- Key order inside state objects and JavaScript's enumeration rules (integer-like keys first): a state is a map, and `changes` is an entry list whose order is the order `Object.keys` gives.
- The registry is one object per value and subscriber type; the source's single `stores` array holds stores of every type.
- GenericStore.Registry.ResetAllStores: the contract states the effect on every store, not the creation order of the calls; with pure initializers and no notifications from `reset`, that order has no visible effect in the model.
- GenericStore.Store.Unsubscribe: a key-scoped handle requires its key to have a list; the source's closure holds that list itself, and a key's list is never removed once made, so every handle the store returns meets this.
- Reassigning `store.state` from outside the store: the model treats it as owned by the store.
