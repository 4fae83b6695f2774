/**
 The earlier store of `createStore.ts`. It has no computed values and no
 key-scoped subscribers, and its state is ONE object that `set` changes in
 place: the object the caller passed in is the store's state, and every
 subscriber call hands over that same object.
 */
module LegacyStore {
  import opened Entries
  import opened Subscribers

  /** A JavaScript object whose properties can be assigned in place. */
  class StateObject<V> {
    var fields: map<string, V>

    constructor (fields: map<string, V>)
      ensures this.fields == fields
    {
      this.fields := fields;
    }
  }

  /** The handle `subscribe` returns: running it is `Unsubscribe`. */
  datatype Unsubscriber<S> = Unsubscriber(callback: S)

  class Store<V, S(==)> {
    /** The object given to `createStore`, never copied. */
    const state: StateObject<V>
    var subscriptions: seq<S>
    /** Every subscriber call so far, with the object it was handed. */
    ghost var calls: seq<Call<S, StateObject<V>>>

    /** No callback is registered twice. */
    ghost predicate Valid()
      reads this
    {
      NoDuplicates(subscriptions)
    }

    /** `createStore(initialState)` */
    constructor (initialState: StateObject<V>)
      ensures Valid()
      ensures state == initialState
      ensures subscriptions == [] && calls == []
    {
      state := initialState;
      subscriptions := [];
      calls := [];
    }

    /** `notify`: every subscriber, in list order, with the state object. */
    method Notify()
      modifies this`calls
      ensures calls == old(calls) + CallsFor(subscriptions, state)
    {
      for i := 0 to |subscriptions|
        invariant calls == old(calls) + CallsFor(subscriptions[..i], state)
      {
        assert subscriptions[..i + 1][..i] == subscriptions[..i];
        calls := calls + [Call(subscriptions[i], state)];
      }
      assert subscriptions[..|subscriptions|] == subscriptions;
    }

    /**
     `set(changes)`: `Object.assign(state, changes)` writes the changes into
     the one state object (other properties keep their values, the store
     keeps the same object), then every subscriber is notified.
     */
    method Set(changes: seq<(string, V)>)
      requires UniqueKeys(changes)
      modifies state, this`calls
      ensures state.fields == Spread(old(state.fields), changes)
      ensures calls == old(calls) + CallsFor(subscriptions, state)
    {
      state.fields := Spread(state.fields, changes);
      Notify();
    }

    /**
     `subscribe(callback)`: a callback already registered changes nothing,
     is not called and gets no handle. Otherwise it is appended, called once
     with the state object, and a handle is returned.
     */
    method Subscribe(callback: S) returns (u: Option<Unsubscriber<S>>)
      requires Valid()
      modifies this`subscriptions, this`calls
      ensures Valid()
      ensures callback in old(subscriptions) ==>
        u == None && subscriptions == old(subscriptions) && calls == old(calls)
      ensures callback !in old(subscriptions) ==>
        && u == Some(Unsubscriber(callback))
        && subscriptions == old(subscriptions) + [callback]
        && calls == old(calls) + [Call(callback, state)]
    {
      if callback in subscriptions {
        return None;
      }
      subscriptions := subscriptions + [callback];
      calls := calls + [Call(callback, state)];
      u := Some(Unsubscriber(callback));
    }

    /** Running a handle: `splice(indexOf(callback), 1)`. */
    method Unsubscribe(u: Unsubscriber<S>)
      requires Valid()
      modifies this`subscriptions
      ensures Valid()
      ensures subscriptions == Remove(old(subscriptions), u.callback)
    {
      RemoveKeepsNoDuplicates(subscriptions, u.callback);
      subscriptions := Remove(subscriptions, u.callback);
    }
  }
}
