/**
 * The registry of named stores (`State`, lib/core/State.js and its twin
 * src/core/State.ts): the stores and observers that exist, and four tables
 * that keep, per store name, the handlers added for it, so that a store
 * added later receives them. The static factories that go through the
 * global `State` (`createStore`, `observableStore`) are methods here.
 */
module Manager {
  import opened Wrappers
  import opened Values
  import opened Actions
  import opened Registry
  import opened StoreSpec
  import opened Stores
  import opened Observers

  /** Every list of unbound handlers holds at most one handler per name. */
  predicate TableUnique(m: map<string, seq<Action>>)
  {
    forall k :: k in m ==> UniqueNames(m[k])
  }

  /** Recording an unbound handler keeps the table free of duplicate names. */
  lemma AddUnboundUnique(m: map<string, seq<Action>>, store: string, a: Action)
    requires TableUnique(m)
    ensures TableUnique(AddUnbound(m, store, a))
    ensures Find(AddUnbound(m, store, a)[store], a.name) == Some(a)
  {
    UpsertSpec(HandlersFor(m, store), a);
    UpsertFinds(HandlersFor(m, store), a);
  }

  /**
   * Position of the first store with the name (`stores.find(s => s.name === name)`).
   * This is `Registry.IndexOf` over stores instead of handlers: Dafny cannot
   * read a `name` of a type parameter without a trait, so each list gets its own.
   */
  function StoreIndex(ss: seq<Store>, name: string): (r: Option<nat>)
    ensures r.None? <==> forall i :: 0 <= i < |ss| ==> ss[i].name != name
    ensures r.Some? ==> r.value < |ss| && ss[r.value].name == name
                        && forall j :: 0 <= j < r.value ==> ss[j].name != name
  {
    if ss == [] then None
    else if ss[0].name == name then Some(0)
    else match StoreIndex(ss[1..], name) case None => None case Some(i) => Some(i + 1)
  }

  /** Position of the first observer with the name; see `StoreIndex`. */
  function ObserverIndex(os: seq<StateObserver>, name: string): (r: Option<nat>)
    ensures r.None? <==> forall i :: 0 <= i < |os| ==> os[i].name != name
    ensures r.Some? ==> r.value < |os| && os[r.value].name == name
                        && forall j :: 0 <= j < r.value ==> os[j].name != name
  {
    if os == [] then None
    else if os[0].name == name then Some(0)
    else match ObserverIndex(os[1..], name) case None => None case Some(i) => Some(i + 1)
  }

  /** The list without the element at `i`, if there is one (`splice(i, 1)`). */
  function Spliced<T>(xs: seq<T>, i: Option<nat>): (r: seq<T>)
    ensures i.None? || i.value >= |xs| ==> r == xs
    ensures i.Some? && i.value < |xs| ==>
              |r| == |xs| - 1
              && (forall j :: 0 <= j < i.value ==> r[j] == xs[j])
              && (forall j :: i.value <= j < |r| ==> r[j] == xs[j + 1])
  {
    if i.Some? && i.value < |xs| then xs[..i.value] + xs[i.value + 1..] else xs
  }

  /** A store's registries after `addStore` replayed the handlers recorded for its name. */
  function Bound(s: StoreState, name: string, listeners: map<string, seq<Action>>, actions: map<string, seq<Action>>,
                 loaders: map<string, seq<Action>>, transformers: map<string, seq<Action>>): (r: StoreState)
    ensures r == s.(listeners := r.listeners, actions := r.actions, loaders := r.loaders, transformers := r.transformers)
  {
    s.(listeners := Replay(s.listeners, HandlersFor(listeners, name), LISTENER),
       actions := Replay(s.actions, HandlersFor(actions, name), ACTION),
       loaders := Replay(s.loaders, HandlersFor(loaders, name), LOADER),
       transformers := Replay(s.transformers, HandlersFor(transformers, name), TRANSFORMER))
  }

  /** A new store added to the registry holds exactly the handlers recorded for its name, retyped, in order. */
  lemma BoundFresh(name: string, listeners: map<string, seq<Action>>, actions: map<string, seq<Action>>,
                   loaders: map<string, seq<Action>>, transformers: map<string, seq<Action>>)
    requires TableUnique(listeners) && TableUnique(actions) && TableUnique(loaders) && TableUnique(transformers)
    ensures var r := Bound(Initial(), name, listeners, actions, loaders, transformers);
            r.listeners == RetypeAll(HandlersFor(listeners, name), LISTENER)
            && r.actions == RetypeAll(HandlersFor(actions, name), ACTION)
            && r.loaders == RetypeAll(HandlersFor(loaders, name), LOADER)
            && r.transformers == RetypeAll(HandlersFor(transformers, name), TRANSFORMER)
  {
    ReplaySpec([], HandlersFor(listeners, name), LISTENER);
    ReplaySpec([], HandlersFor(actions, name), ACTION);
    ReplaySpec([], HandlersFor(loaders, name), LOADER);
    ReplaySpec([], HandlersFor(transformers, name), TRANSFORMER);
  }

  /**
   * A listener added for a store that does not exist yet is on the store
   * once a new store of that name is added.
   */
  lemma ListenerAddedBeforeStore(m: map<string, seq<Action>>, store: string, name: string, callback: Callback,
                                 actions: map<string, seq<Action>>, loaders: map<string, seq<Action>>,
                                 transformers: map<string, seq<Action>>)
    requires TableUnique(m)
    ensures var a := Action(name, callback, LISTENER);
            var r := Bound(Initial(), store, AddUnbound(m, store, a), actions, loaders, transformers);
            Find(r.listeners, name) == Some(a)
  {
    var a := Action(name, callback, LISTENER);
    var m' := AddUnbound(m, store, a);
    var us := m'[store];
    AddUnboundUnique(m, store, a);
    var ls := Bound(Initial(), store, m', actions, loaders, transformers).listeners;
    assert ls == Replay([], us, LISTENER) by { assert HandlersFor(m', store) == us; }
    ReplaySpec([], us, LISTENER);
    assert Without([], Names(us)) == [];
    assert ls == RetypeAll(us, LISTENER);
    IndexOfRetypeAll(us, name, LISTENER);
    var i := IndexOf(us, name).value;
    assert us[i] == a;
    assert ls[i] == Retype(a, LISTENER) == a;
  }

  /** Which of the four tables of unbound handlers. */
  datatype Table = ListenerTable | ActionTable | LoaderTable | TransformerTable

  class State {
    var stores: seq<Store>
    var observers: seq<StateObserver>
    var listeners: map<string, seq<Action>>
    var actions: map<string, seq<Action>>
    var loaders: map<string, seq<Action>>
    var transformers: map<string, seq<Action>>

    /** No table lists two handlers of one name for one store. */
    predicate Valid()
      reads this
    {
      TableUnique(listeners) && TableUnique(actions) && TableUnique(loaders) && TableUnique(transformers)
    }

    function Holder(t: Table): map<string, seq<Action>>
      reads this
    {
      match t
      case ListenerTable => listeners
      case ActionTable => actions
      case LoaderTable => loaders
      case TransformerTable => transformers
    }

    constructor ()
      ensures stores == [] && observers == []
      ensures listeners == map[] && actions == map[] && loaders == map[] && transformers == map[]
      ensures Valid()
    {
      stores := [];
      observers := [];
      listeners := map[];
      actions := map[];
      loaders := map[];
      transformers := map[];
    }

    /** `findStore(name)`: the first store with the name. */
    function FindStore(name: string): (r: Option<Store>)
      reads this
      ensures r.None? <==> forall i :: 0 <= i < |stores| ==> stores[i].name != name
      ensures r.Some? ==> StoreIndex(stores, name).Some? && r.value == stores[StoreIndex(stores, name).value]
    {
      match StoreIndex(stores, name) case Some(i) => Some(stores[i]) case None => None
    }

    /** `findStateObserver(name)`: the first observer with the name. */
    function FindStateObserver(name: string): (r: Option<StateObserver>)
      reads this
      ensures r.None? <==> forall i :: 0 <= i < |observers| ==> observers[i].name != name
      ensures r.Some? ==> ObserverIndex(observers, name).Some? && r.value == observers[ObserverIndex(observers, name).value]
    {
      match ObserverIndex(observers, name) case Some(i) => Some(observers[i]) case None => None
    }

    /** `addUnboundEventHandler(holder, store, name, callback, actionType)`: an upsert into `holder[store]`. */
    method AddUnboundEventHandler(t: Table, store: string, name: string, callback: Callback, actionType: ActionType)
      returns (ok: bool)
      modifies this
      ensures ok && stores == old(stores) && observers == old(observers)
      ensures Holder(t) == AddUnbound(old(Holder(t)), store, Action(name, callback, actionType))
      ensures t != ListenerTable ==> listeners == old(listeners)
      ensures t != ActionTable ==> actions == old(actions)
      ensures t != LoaderTable ==> loaders == old(loaders)
      ensures t != TransformerTable ==> transformers == old(transformers)
      ensures old(Valid()) ==> Valid() && Find(Holder(t)[store], name) == Some(Action(name, callback, actionType))
    {
      var a := NewAction(name, callback, actionType);
      if Valid() {
        AddUnboundUnique(Holder(t), store, a);
      }
      var handlers := [];
      if store in Holder(t) {
        handlers := Holder(t)[store];
      }
      if Find(handlers, name).Some? {
        handlers := RemoveFirst(handlers, name);
      }
      handlers := handlers + [a];
      ok := true;
      match t
      case ListenerTable => listeners := listeners[store := handlers];
      case ActionTable => actions := actions[store := handlers];
      case LoaderTable => loaders := loaders[store := handlers];
      case TransformerTable => transformers := transformers[store := handlers];
    }

    /**
     * `addListener(store, name, callback)`: recorded for the store name, and
     * created on the store of that name if there is one.
     */
    method AddListener(store: string, name: string, callback: Callback) returns (ok: bool)
      modifies this, stores
      ensures ok && stores == old(stores) && observers == old(observers)
      ensures listeners == AddUnbound(old(listeners), store, Action(name, callback, LISTENER))
      ensures actions == old(actions) && loaders == old(loaders) && transformers == old(transformers)
      ensures old(FindStore(store)).Some? ==>
                var s := old(FindStore(store)).value;
                s.Abs() == old(s.Abs()).(listeners := Upsert(old(s.listeners), Action(name, callback, LISTENER)))
      ensures forall s :: s in stores && Some(s) != old(FindStore(store)) ==> s.Abs() == old(s.Abs())
      ensures old(Valid()) ==> Valid()
    {
      ok := AddUnboundEventHandler(ListenerTable, store, name, callback, LISTENER);
      var storeDef := FindStore(store);
      if ok && storeDef.Some? {
        ok := storeDef.value.CreateListener(name, callback);
      }
    }

    /** `addAction(store, name, callback)`. */
    method AddAction(store: string, name: string, callback: Callback) returns (ok: bool)
      modifies this, stores
      ensures ok && stores == old(stores) && observers == old(observers)
      ensures actions == AddUnbound(old(actions), store, Action(name, callback, ACTION))
      ensures listeners == old(listeners) && loaders == old(loaders) && transformers == old(transformers)
      ensures old(FindStore(store)).Some? ==>
                var s := old(FindStore(store)).value;
                s.Abs() == old(s.Abs()).(actions := Upsert(old(s.actions), Action(name, callback, ACTION)))
      ensures forall s :: s in stores && Some(s) != old(FindStore(store)) ==> s.Abs() == old(s.Abs())
      ensures old(Valid()) ==> Valid()
    {
      ok := AddUnboundEventHandler(ActionTable, store, name, callback, ACTION);
      var storeDef := FindStore(store);
      if ok && storeDef.Some? {
        ok := storeDef.value.CreateAction(name, callback, false);
      }
    }

    /** `addLoader(store, name, callback)`. */
    method AddLoader(store: string, name: string, callback: Callback) returns (ok: bool)
      modifies this, stores
      ensures ok && stores == old(stores) && observers == old(observers)
      ensures loaders == AddUnbound(old(loaders), store, Action(name, callback, LOADER))
      ensures listeners == old(listeners) && actions == old(actions) && transformers == old(transformers)
      ensures old(FindStore(store)).Some? ==>
                var s := old(FindStore(store)).value;
                s.Abs() == old(s.Abs()).(loaders := Upsert(old(s.loaders), Action(name, callback, LOADER)))
      ensures forall s :: s in stores && Some(s) != old(FindStore(store)) ==> s.Abs() == old(s.Abs())
      ensures old(Valid()) ==> Valid()
    {
      ok := AddUnboundEventHandler(LoaderTable, store, name, callback, LOADER);
      var storeDef := FindStore(store);
      if ok && storeDef.Some? {
        ok := storeDef.value.CreateLoader(name, callback);
      }
    }

    /** `addTransformer(store, name, callback)`. */
    method AddTransformer(store: string, name: string, callback: Callback) returns (ok: bool)
      modifies this, stores
      ensures ok && stores == old(stores) && observers == old(observers)
      ensures transformers == AddUnbound(old(transformers), store, Action(name, callback, TRANSFORMER))
      ensures listeners == old(listeners) && actions == old(actions) && loaders == old(loaders)
      ensures old(FindStore(store)).Some? ==>
                var s := old(FindStore(store)).value;
                s.Abs() == old(s.Abs()).(transformers := Upsert(old(s.transformers), Action(name, callback, TRANSFORMER)))
      ensures forall s :: s in stores && Some(s) != old(FindStore(store)) ==> s.Abs() == old(s.Abs())
      ensures old(Valid()) ==> Valid()
    {
      ok := AddUnboundEventHandler(TransformerTable, store, name, callback, TRANSFORMER);
      var storeDef := FindStore(store);
      if ok && storeDef.Some? {
        ok := storeDef.value.CreateTransformer(name, callback);
      }
    }

    /**
     * `addStore(store)`: the store is appended, and the handlers recorded
     * for its name are created on it: listeners, actions, loaders, then
     * transformers, each list in order.
     */
    method AddStore(store: Store)
      modifies this, store
      ensures stores == old(stores) + [store] && observers == old(observers)
      ensures listeners == old(listeners) && actions == old(actions)
      ensures loaders == old(loaders) && transformers == old(transformers)
      ensures store.Abs() == Bound(old(store.Abs()), store.name, listeners, actions, loaders, transformers)
      ensures old(store.Valid()) ==> store.Valid()
    {
      stores := stores + [store];
      ReplayOnto(store, HandlersFor(listeners, store.name), LISTENER);
      ReplayOnto(store, HandlersFor(actions, store.name), ACTION);
      ReplayOnto(store, HandlersFor(loaders, store.name), LOADER);
      ReplayOnto(store, HandlersFor(transformers, store.name), TRANSFORMER);
    }

    /** `addStateObserver(observer)`. */
    method AddStateObserver(observer: StateObserver)
      modifies this
      ensures observers == old(observers) + [observer] && stores == old(stores)
      ensures listeners == old(listeners) && actions == old(actions)
      ensures loaders == old(loaders) && transformers == old(transformers)
    {
      observers := observers + [observer];
    }

    /**
     * `removeStore(name)`: the first store with the name is taken out and
     * the handlers recorded for the name are forgotten; with no such store
     * nothing changes. It always reports success.
     */
    method RemoveStore(name: string) returns (ok: bool)
      modifies this
      ensures ok && observers == old(observers)
      ensures stores == Spliced(old(stores), StoreIndex(old(stores), name))
      ensures StoreIndex(old(stores), name).Some? ==>
                listeners == old(listeners) - {name} && actions == old(actions) - {name}
                && loaders == old(loaders) - {name} && transformers == old(transformers) - {name}
      ensures StoreIndex(old(stores), name).None? ==>
                listeners == old(listeners) && actions == old(actions)
                && loaders == old(loaders) && transformers == old(transformers)
      ensures old(Valid()) ==> Valid()
    {
      var i := StoreIndex(stores, name);
      if i.Some? {
        stores := stores[..i.value] + stores[i.value + 1..];
        loaders := loaders - {name};
        actions := actions - {name};
        listeners := listeners - {name};
        transformers := transformers - {name};
      }
      ok := true;
    }

    /** `removeStateObserver(name)`: the first observer with the name is taken out. */
    method RemoveStateObserver(name: string) returns (ok: bool)
      modifies this
      ensures ok && observers == Spliced(old(observers), ObserverIndex(old(observers), name))
      ensures stores == old(stores) && listeners == old(listeners) && actions == old(actions)
      ensures loaders == old(loaders) && transformers == old(transformers)
    {
      var i := ObserverIndex(observers, name);
      if i.Some? {
        observers := observers[..i.value] + observers[i.value + 1..];
      }
      ok := true;
    }

    /** `clearStores()`: no stores and empty tables; the observers stay. */
    method ClearStores() returns (ok: bool)
      modifies this
      ensures ok && stores == [] && observers == old(observers)
      ensures listeners == map[] && actions == map[] && loaders == map[] && transformers == map[]
      ensures Valid()
    {
      stores := [];
      loaders := map[];
      actions := map[];
      listeners := map[];
      transformers := map[];
      ok := |stores| == 0 && |loaders| == 0 && |actions| == 0 && |listeners| == 0;
    }

    /** `clearObservers()`. */
    method ClearObservers() returns (ok: bool)
      modifies this
      ensures ok && observers == [] && stores == old(stores)
      ensures listeners == old(listeners) && actions == old(actions)
      ensures loaders == old(loaders) && transformers == old(transformers)
    {
      observers := [];
      ok := true;
    }

    /** `clear()`: `clearStores() && clearObservers()`. */
    method Clear() returns (ok: bool)
      modifies this
      ensures ok && stores == [] && observers == []
      ensures listeners == map[] && actions == map[] && loaders == map[] && transformers == map[]
    {
      ok := ClearStores();
      if ok {
        ok := ClearObservers();
      }
    }

    /**
     * `Store.createStore(options)` and `GenericDataStore.createStore(options)`:
     * a name that is taken throws; otherwise a new store is added.
     */
    method CreateStore(options: StoreOptions, src: bool, generic: bool) returns (r: Result<Store, Error>)
      modifies this
      ensures old(FindStore(options.name)).Some? ==>
                r == Err(DuplicateStore(options.name)) && stores == old(stores)
      ensures old(FindStore(options.name)).None? ==>
                r.Ok? && fresh(r.value) && stores == old(stores) + [r.value]
                && r.value.name == options.name && r.value.src == src && r.value.generic == generic
                && r.value.Abs() == Bound(Initial(), options.name, listeners, actions, loaders, transformers)
                && r.value.Valid()
      ensures observers == old(observers) && listeners == old(listeners) && actions == old(actions)
      ensures loaders == old(loaders) && transformers == old(transformers)
    {
      if FindStore(options.name).Some? {
        return Err(DuplicateStore(options.name));
      }
      var store := new Store(options, src, generic);
      AddStore(store);
      r := Ok(store);
    }

    /**
     * The src `Store.observableStore(target, options)`: a store of that name
     * is removed, a new one added, and the target observed by it.
     */
    method ObservableStore(target: Value, options: StoreOptions, decorators: seq<Decorator>, now: int)
      returns (store: Store, r: Result<Value, Error>)
      modifies this
      ensures fresh(store) && store.name == options.name && store.src && !store.generic
      ensures stores == Spliced(old(stores), StoreIndex(old(stores), options.name)) + [store]
      ensures observers == old(observers)
      ensures StoreIndex(old(stores), options.name).Some? ==>
                listeners == old(listeners) - {options.name} && actions == old(actions) - {options.name}
                && loaders == old(loaders) - {options.name} && transformers == old(transformers) - {options.name}
      ensures StoreIndex(old(stores), options.name).None? ==>
                listeners == old(listeners) && actions == old(actions)
                && loaders == old(loaders) && transformers == old(transformers)
      ensures var x := ObserveSrc(store.Cfg(), Bound(Initial(), options.name, listeners, actions, loaders, transformers),
                                  target, decorators, now);
              store.Abs() == x.state && r == x.result
      ensures old(Valid()) ==> store.Valid()
    {
      var ok := RemoveStore(options.name);
      store := new Store(options, true, false);
      AddStore(store);
      r := store.Observe(target, decorators, now);
    }

    /**
     * `StateObserver.observableStore(target, options)`: an observer of that
     * name is removed, a new one added, and the target observed by it.
     */
    method ObservableObserver(target: Value, name: string, decorators: seq<Decorator>)
      returns (observer: StateObserver)
      modifies this
      ensures fresh(observer) && observer.name == name
      ensures observers == Spliced(old(observers), ObserverIndex(old(observers), name)) + [observer]
      ensures stores == old(stores)
      ensures listeners == old(listeners) && actions == old(actions)
      ensures loaders == old(loaders) && transformers == old(transformers)
      ensures observer.Abs() == ObserveLib(Initial(), target, decorators) && observer.Valid()
      ensures !observer.IsDirty(true) && !observer.IsDirty(false)
    {
      var ok := RemoveStateObserver(name);
      observer := new StateObserver(name);
      AddStateObserver(observer);
      observer.Observe(target, decorators);
    }
  }

  /** One registry of a store after the handlers of one table were created on it, in order. */
  function ReplayInto(s: StoreState, us: seq<Action>, t: ActionType): StoreState
  {
    match t
    case LISTENER => s.(listeners := Replay(s.listeners, us, t))
    case ACTION => s.(actions := Replay(s.actions, us, t))
    case INLINE_ACTION => s.(actions := Replay(s.actions, us, t))
    case LOADER => s.(loaders := Replay(s.loaders, us, t))
    case TRANSFORMER => s.(transformers := Replay(s.transformers, us, t))
  }

  /** Replaying one more handler is registering it as a decorator of its type. */
  lemma ReplayIntoStep(k: Kind, s: StoreState, us: seq<Action>, t: ActionType, i: nat)
    requires !k.Observer? && i < |us|
    ensures ReplayInto(s, us[..i + 1], t) == Register(k, ReplayInto(s, us[..i], t), Decorator(us[i].name, t, us[i].callback))
  {
    assert us[..i + 1][..i] == us[..i];
    assert us[..i + 1][i] == us[i];
  }

  /** The loop of `addStore` over one table's list: each handler created on the store, in order. */
  method ReplayOnto(store: Store, us: seq<Action>, t: ActionType)
    requires t != INLINE_ACTION
    modifies store
    ensures store.Abs() == ReplayInto(old(store.Abs()), us, t)
    ensures old(store.Valid()) ==> store.Valid()
  {
    ghost var v := old(store.Valid());
    var i := 0;
    assert us[..0] == [];
    while i < |us|
      invariant 0 <= i <= |us|
      invariant store.Abs() == ReplayInto(old(store.Abs()), us[..i], t)
      invariant v ==> store.Valid()
    {
      ReplayIntoStep(store.Cfg().kind, old(store.Abs()), us, t, i);
      store.Register(Decorator(us[i].name, t, us[i].callback));
      i := i + 1;
    }
    assert us[..|us|] == us;
  }
}
