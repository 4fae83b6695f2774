/**
 Small client programs that use the stores only through their contracts: a
 counter with a computed `double`, global and key-scoped subscribers, and the
 shared state object of the earlier store. Every store of `src/index.ts` is
 made through a registry, as `createStore` registers each store it makes.
 */
module Scenarios {
  import opened Entries
  import opened Subscribers
  import opened GenericStore
  import LegacyStore

  function Double(s: State<int>): int
  {
    if "count" in s then s["count"] * 2 else 0
  }

  /** Creation and `set` keep `double` in step with `count`. */
  method ComputedScenario()
  {
    var registry := new Registry<int, string>();
    var store := registry.CreateStore(() => map["count" := 0], [("double", Double)]);
    assert UniqueKeys([("double", Double)]);
    assert store.state == map["count" := 0, "double" := 0];
    assert Names([("count", 5)]) == ["count"];
    store.Set([("count", 5)]);
    assert store.dataState == map["count" := 5];
    assert store.state == map["count" := 5, "double" := 10];
  }

  /** A global subscriber is called when it subscribes and on every `set`. */
  method SubscribeAllScenario()
  {
    var registry := new Registry<int, string>();
    var store := registry.CreateStore(() => map["count" := 0], []);
    var a := store.SubscribeAll("A");
    assert |store.calls| == 1;
    assert Names([("count", 1)]) == ["count"];
    store.Set([("count", 1)]);
    assert |store.calls| == 2 && store.calls[1].subscriber == "A";
  }

  /** Once unsubscribed, a global subscriber is not reached by `set`. */
  method UnsubscribeScenario()
  {
    var registry := new Registry<int, string>();
    var store := registry.CreateStore(() => map["count" := 0], []);
    var a := store.SubscribeAll("A");
    assert store.subscriptions == ["A"] && |store.calls| == 1;
    store.Unsubscribe(a.value);
    assert store.subscriptions == [];
    assert Names([("count", 2)]) == ["count"];
    store.Set([("count", 2)]);
    assert |store.calls| == 1;
  }

  /** A key-scoped subscriber is reached only by a `set` that names its key. */
  method NamedScenario()
  {
    var registry := new Registry<int, string>();
    var store := registry.CreateStore(() => map["count" := 0], []);
    var b := store.Subscribe("count", "B");
    assert Names([("other", 5)]) == ["other"];
    store.Set([("other", 5)]);
    assert store.calls == [];
    assert Names([("count", 3)]) == ["count"];
    store.Set([("count", 3)]);
    assert |store.calls| == 1 && store.calls[0].subscriber == "B";
  }

  /**
   The earlier store changes the caller's own object, and both of a
   subscriber's calls hand over that one object, which by then shows only the
   latest value.
   */
  method LegacyScenario()
  {
    var obj := new LegacyStore.StateObject(map["count" := 0]);
    var store := new LegacyStore.Store<int, string>(obj);
    var a := store.Subscribe("A");
    assert Names([("count", 1)]) == ["count"];
    store.Set([("count", 1)]);
    assert obj.fields == map["count" := 1];
    assert store.calls == [Call("A", obj), Call("A", obj)];
  }
}
