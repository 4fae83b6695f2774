/**
 The store of `src/index.ts`. A store keeps a raw state (`dataState`), a
 merged state (`state`: the raw state with the computed values spread over
 it), an ordered list of global subscribers and, per key, an ordered list of
 key-scoped subscribers. States are maps from key to value; every subscriber
 call is appended to the log `calls` with the state it was given.
 */
module GenericStore {
  import opened Entries
  import opened Subscribers

  type State<V> = map<string, V>

  /** The computed configuration as `Object.entries` lists it. */
  type Computed<!V> = seq<(string, State<V> -> V)>

  /** Each computed key paired with its function applied to the raw state, in configuration order. */
  function Evaluate<V>(fns: Computed<V>, raw: State<V>): seq<(string, V)>
  {
    seq(|fns|, i requires 0 <= i < |fns| => (fns[i].0, fns[i].1(raw)))
  }

  /**
   `generateMergedState`: the raw keys plus the computed keys. A computed key
   holds its function applied to the raw state, also when the raw state has
   a key of the same name (the computed values are spread last); a raw key
   that is not computed keeps its value.
   */
  function MergedState<V>(fns: Computed<V>, raw: State<V>): (r: State<V>)
    ensures forall k :: k in r <==> k in raw || k in Names(fns)
    ensures forall k :: k in raw && k !in Names(fns) ==> r[k] == raw[k]
    ensures UniqueKeys(fns) ==>
      forall i :: 0 <= i < |fns| ==> fns[i].0 in r && r[fns[i].0] == fns[i].1(raw)
  {
    var values := Evaluate(fns, raw);
    assert forall i :: 0 <= i < |fns| ==> values[i].0 == fns[i].0 && values[i].1 == fns[i].1(raw);
    assert Names(values) == Names(fns);
    assert UniqueKeys(fns) ==> UniqueKeys(values);
    Spread(raw, values)
  }

  /** Without a `computed` option the merged state is the raw state. */
  lemma MergedStateWithoutComputed<V>(raw: State<V>)
    ensures MergedState([], raw) == raw
  {
    assert Evaluate([], raw) == [];
  }

  /** The key-scoped list of `name`, or nothing when no list was ever made. */
  function ListFor<S>(named: map<string, seq<S>>, name: string): seq<S>
  {
    if name in named then named[name] else []
  }

  /**
   The key-scoped calls of a `set`: for each changed key in key order, the
   calls to that key's list; a key without a list adds nothing.
   */
  function NamedCalls<S, V>(named: map<string, seq<S>>, names: seq<string>, st: State<V>): seq<Call<S, State<V>>>
  {
    if |names| == 0 then []
    else NamedCalls(named, names[..|names| - 1], st) + CallsFor(ListFor(named, names[|names| - 1]), st)
  }

  /**
   A key-scoped call goes to exactly the subscribers registered under one of
   the changed keys, with the new state.
   */
  lemma {:induction false} NamedCallsMembership<S, V>(named: map<string, seq<S>>, names: seq<string>, st: State<V>, c: Call<S, State<V>>)
    ensures c in NamedCalls(named, names, st) <==>
      c.arg == st && exists j :: 0 <= j < |names| && names[j] in named && c.subscriber in named[names[j]]
  {
    if |names| > 0 {
      var last := names[|names| - 1];
      var init := names[..|names| - 1];
      NamedCallsMembership(named, init, st, c);
      CallsForMembership(ListFor(named, last), st, c);
      if c.arg == st && c.subscriber in ListFor(named, last) {
        assert names[|names| - 1] == last;
      }
      if c.arg == st && exists j :: 0 <= j < |names| && names[j] in named && c.subscriber in named[names[j]] {
        var j :| 0 <= j < |names| && names[j] in named && c.subscriber in named[names[j]];
        if j < |names| - 1 {
          assert init[j] == names[j];
        }
      }
    }
  }

  /**
   Computed keys are not tracked: a subscriber registered under one key only
   is called by a `set` exactly when that key literally occurs among the
   changed keys, whatever happened to the value under it.
   */
  lemma KeyedSubscriberNeedsLiteralKey<S, V>(named: map<string, seq<S>>, names: seq<string>, st: State<V>, s: S, key: string)
    requires key in named && s in named[key]
    requires forall k :: k in named && s in named[k] ==> k == key
    ensures Call(s, st) in NamedCalls(named, names, st) <==> key in names
  {
    NamedCallsMembership(named, names, st, Call(s, st));
  }

  /**
   After its unsubscribe closure has run, a global subscriber is not among
   those the next `set` calls.
   */
  lemma UnsubscribedReceivesNothing<S, V>(subs: seq<S>, x: S, st: State<V>)
    requires NoDuplicates(subs)
    ensures Call(x, st) !in CallsFor(Remove(subs, x), st)
  {
    RemoveKeepsNoDuplicates(subs, x);
    CallsForMembership(Remove(subs, x), st, Call(x, st));
  }

  /**
   The handle a successful subscription returns: running it is `Unsubscribe`
   with this value.
   */
  datatype Unsubscriber<S> =
    | UnsubscribeAll(callback: S)
    | UnsubscribeNamed(name: string, callback: S)

  class Store<V, S(==)> {
    const init: () -> State<V>
    const computed: Computed<V>
    /** The state without the computed values. */
    var dataState: State<V>
    /** The merged state the store exposes and hands to subscribers. */
    var state: State<V>
    var subscriptions: seq<S>
    var namedSubscriptions: map<string, seq<S>>
    /** Every subscriber call so far, in order. */
    ghost var calls: seq<Call<S, State<V>>>

    /** Computed keys are an object's keys; no list registers a callback twice. */
    ghost predicate Valid()
      reads this
    {
      && UniqueKeys(computed)
      && NoDuplicates(subscriptions)
      && forall name :: name in namedSubscriptions ==> NoDuplicates(namedSubscriptions[name])
    }

    /** `createStore(init, { computed })` */
    constructor (init: () -> State<V>, computed: Computed<V>)
      requires UniqueKeys(computed)
      ensures Valid()
      ensures this.init == init && this.computed == computed
      ensures dataState == init() && state == MergedState(computed, init())
      ensures subscriptions == [] && namedSubscriptions == map[] && calls == []
    {
      this.init := init;
      this.computed := computed;
      dataState := init();
      state := MergedState(computed, init());
      subscriptions := [];
      namedSubscriptions := map[];
      calls := [];
    }

    /** `updateMergedState` */
    method UpdateMergedState()
      modifies this`state
      ensures state == MergedState(computed, dataState)
    {
      state := MergedState(computed, dataState);
    }

    /** `notifySubscribers`: every global subscriber, in order, with `state`. */
    method NotifySubscribers()
      modifies this`calls
      ensures calls == old(calls) + CallsFor(subscriptions, state)
    {
      var i := 0;
      while i < |subscriptions|
        invariant 0 <= i <= |subscriptions|
        invariant calls == old(calls) + CallsFor(subscriptions[..i], state)
      {
        assert subscriptions[..i + 1][..i] == subscriptions[..i];
        calls := calls + [Call(subscriptions[i], state)];
        i := i + 1;
      }
      assert subscriptions[..i] == subscriptions;
    }

    /**
     `notifyNamedSubscribers(name)`: the subscribers of `name`, in order, with
     `state`; nothing when no list exists for `name`.
     */
    method NotifyNamedSubscribers(name: string)
      modifies this`calls
      ensures calls == old(calls) + CallsFor(ListFor(namedSubscriptions, name), state)
    {
      if name !in namedSubscriptions {
        return;
      }
      var list := namedSubscriptions[name];
      var i := 0;
      while i < |list|
        invariant 0 <= i <= |list|
        invariant calls == old(calls) + CallsFor(list[..i], state)
      {
        assert list[..i + 1][..i] == list[..i];
        calls := calls + [Call(list[i], state)];
        i := i + 1;
      }
      assert list[..i] == list;
    }

    /**
     `reset`: the raw state is initialised again. The merged state is NOT
     rebuilt and nobody is notified.
     */
    method Reset()
      modifies this`dataState
      ensures dataState == init()
      ensures state == old(state) && calls == old(calls)
    {
      dataState := init();
    }

    /**
     The loop of `set` over `Object.keys(changes)`: `notifyNamedSubscribers`
     for each changed key, in key order.
     */
    method NotifyChangedKeys(names: seq<string>)
      modifies this`calls
      ensures calls == old(calls) + NamedCalls(namedSubscriptions, names, state)
    {
      for i := 0 to |names|
        invariant calls == old(calls) + NamedCalls(namedSubscriptions, names[..i], state)
      {
        assert names[..i + 1][..i] == names[..i];
        NotifyNamedSubscribers(names[i]);
      }
      assert names[..|names|] == names;
    }

    /**
     `set(changes)`: the changes are spread over the raw state, the merged
     state is rebuilt from the result, then the global subscribers and after
     them the subscribers of each changed key, in key order, are called with
     the new merged state.
     */
    method Set(changes: seq<(string, V)>)
      requires UniqueKeys(changes)
      modifies this`dataState, this`state, this`calls
      ensures dataState == Spread(old(dataState), changes)
      ensures state == MergedState(computed, dataState)
      ensures calls == old(calls) + CallsFor(subscriptions, state)
                                  + NamedCalls(namedSubscriptions, Names(changes), state)
    {
      dataState := Spread(dataState, changes);
      UpdateMergedState();
      NotifySubscribers();
      NotifyChangedKeys(Names(changes));
    }

    /**
     `subscribe(name, callback)`: a callback already in the list of `name`
     changes nothing and gets no handle. Otherwise it is appended to that list
     (made empty first if missing) and a handle is returned. Nothing is
     called, and the lists of other keys stay as they were.
     */
    method Subscribe(name: string, callback: S) returns (u: Option<Unsubscriber<S>>)
      requires Valid()
      modifies this`namedSubscriptions
      ensures Valid()
      ensures subscriptions == old(subscriptions) && calls == old(calls)
      ensures callback in ListFor(old(namedSubscriptions), name) ==>
        u == None && namedSubscriptions == old(namedSubscriptions)
      ensures callback !in ListFor(old(namedSubscriptions), name) ==>
        && u == Some(UnsubscribeNamed(name, callback))
        && namedSubscriptions == old(namedSubscriptions)[name := ListFor(old(namedSubscriptions), name) + [callback]]
    {
      if name !in namedSubscriptions {
        namedSubscriptions := namedSubscriptions[name := []];
      }
      var target := namedSubscriptions[name];
      if callback in target {
        return None;
      }
      namedSubscriptions := namedSubscriptions[name := target + [callback]];
      u := Some(UnsubscribeNamed(name, callback));
    }

    /**
     `subscribeAll(callback)`: a callback already registered changes nothing,
     is not called and gets no handle. Otherwise it is appended to the global
     list, called once with the current merged state, and a handle is
     returned.
     */
    method SubscribeAll(callback: S) returns (u: Option<Unsubscriber<S>>)
      requires Valid()
      modifies this`subscriptions, this`calls
      ensures Valid()
      ensures callback in old(subscriptions) ==>
        u == None && subscriptions == old(subscriptions) && calls == old(calls)
      ensures callback !in old(subscriptions) ==>
        && u == Some(UnsubscribeAll(callback))
        && subscriptions == old(subscriptions) + [callback]
        && calls == old(calls) + [Call(callback, state)]
    {
      if callback in subscriptions {
        return None;
      }
      subscriptions := subscriptions + [callback];
      calls := calls + [Call(callback, state)];
      u := Some(UnsubscribeAll(callback));
    }

    /**
     Running a handle: `splice(indexOf(callback), 1)` on the list the handle
     was made for. The list of a key is never replaced once made, so the
     handle's key still names it.
     */
    method Unsubscribe(u: Unsubscriber<S>)
      requires Valid()
      requires u.UnsubscribeNamed? ==> u.name in namedSubscriptions
      modifies this`subscriptions, this`namedSubscriptions
      ensures Valid()
      ensures u.UnsubscribeAll? ==>
        && subscriptions == Remove(old(subscriptions), u.callback)
        && namedSubscriptions == old(namedSubscriptions)
      ensures u.UnsubscribeNamed? ==>
        && namedSubscriptions == old(namedSubscriptions)[u.name := Remove(old(namedSubscriptions)[u.name], u.callback)]
        && subscriptions == old(subscriptions)
    {
      match u
      case UnsubscribeAll(callback) =>
        RemoveKeepsNoDuplicates(subscriptions, callback);
        subscriptions := Remove(subscriptions, callback);
      case UnsubscribeNamed(name, callback) =>
        RemoveKeepsNoDuplicates(namedSubscriptions[name], callback);
        namedSubscriptions := namedSubscriptions[name := Remove(namedSubscriptions[name], callback)];
    }
  }

  /** The module-level `stores` array, as an object of its own. */
  class Registry<V, S(==)> {
    var stores: seq<Store<V, S>>

    constructor ()
      ensures stores == []
    {
      stores := [];
    }

    /** `createStore`: a new store, appended to the registry. */
    method CreateStore(init: () -> State<V>, computed: Computed<V>) returns (store: Store<V, S>)
      requires UniqueKeys(computed)
      modifies this
      ensures fresh(store) && store.Valid()
      ensures stores == old(stores) + [store]
      ensures store.init == init && store.computed == computed
      ensures store.dataState == init() && store.state == MergedState(computed, init())
      ensures store.subscriptions == [] && store.namedSubscriptions == map[] && store.calls == []
    {
      store := new Store(init, computed);
      stores := stores + [store];
    }

    /**
     `resetAllStores`: `reset` on every store, in creation order. Each raw
     state is initialised again; merged states, subscriptions and logs stay
     as they were.
     */
    method ResetAllStores()
      modifies stores
      ensures forall i :: 0 <= i < |stores| ==> stores[i].dataState == stores[i].init()
      ensures forall i :: 0 <= i < |stores| ==>
        && stores[i].state == old(stores[i].state)
        && stores[i].subscriptions == old(stores[i].subscriptions)
        && stores[i].namedSubscriptions == old(stores[i].namedSubscriptions)
        && stores[i].calls == old(stores[i].calls)
    {
      for i := 0 to |stores|
        invariant forall j :: 0 <= j < i ==> stores[j].dataState == stores[j].init()
        invariant forall j :: 0 <= j < |stores| ==>
          && stores[j].state == old(stores[j].state)
          && stores[j].subscriptions == old(stores[j].subscriptions)
          && stores[j].namedSubscriptions == old(stores[j].namedSubscriptions)
          && stores[j].calls == old(stores[j].calls)
      {
        stores[i].Reset();
      }
    }
  }
}
