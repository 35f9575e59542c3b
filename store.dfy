/**
 * The stores as objects whose fields change in place: the lib `Store` and
 * `GenericDataStore` (lib/core/Store.js) and the src `Store` and
 * `GenericDataStore` (src/core/Store.ts). Every method is proved to leave the
 * store in the state the functions of `StoreSpec` compute.
 */
module Stores {
  import opened Wrappers
  import opened Values
  import opened Util
  import opened Actions
  import opened Registry
  import opened Tree
  import opened StoreSpec

  /** The options a store is created with; absent fields are `undefined`. */
  datatype StoreOptions = StoreOptions(
    name: string,
    isCachable: Option<bool>,
    cacheTimeoutSeconds: Option<int>,
    persistCache: Option<bool>,
    cachePrefix: Option<string>)

  /** `options.isCachable || false`. */
  function FlagOf(o: Option<bool>): (r: bool)
    ensures r <==> o == Some(true)
  {
    match o case Some(b) => b case None => false
  }

  /** `options.cacheTimeoutSeconds || -1`: a missing or zero timeout becomes -1. */
  function TimeoutOf(o: Option<int>): (r: int)
    ensures r != 0
    ensures o.Some? && o.value != 0 ==> r == o.value
    ensures o.None? || o.value == 0 ==> r == -1
  {
    match o case Some(t) => if t != 0 then t else -1 case None => -1
  }

  /** `options.cachePrefix || ''`. */
  function PrefixOf(o: Option<string>): (r: string)
    ensures o.Some? ==> r == o.value
    ensures o.None? ==> r == ""
  {
    match o case Some(p) => p case None => ""
  }

  /** The loop of `executeListeners`: one executor per listener, called in order. */
  method NotifyListeners(ls: seq<Action>, params: seq<Value>) returns (calls: seq<Invocation>)
    ensures calls == Notify(ls, params)
  {
    calls := [];
    var i := 0;
    while i < |ls|
      invariant 0 <= i <= |ls|
      invariant calls == Notify(ls[..i], params)
    {
      assert ls[..i + 1][..i] == ls[..i];
      calls := calls + Calls(CreateExecutor(ls[i], params));
      i := i + 1;
    }
    assert ls[..|ls|] == ls;
  }

  class Store {
    const name: string
    /** Whether this is the src store rather than the lib one. */
    const src: bool
    /** Whether this is a `GenericDataStore`. */
    const generic: bool
    const isCachable: bool
    const cacheTimeoutSeconds: int
    const persistCache: bool
    const cachePrefix: string

    var data: Value
    var previous: Value
    var actions: seq<Action>
    var listeners: seq<Action>
    var loaders: seq<Action>
    var transformers: seq<Action>
    var isCached: bool
    var isLoading: bool
    var lastLoadTime: Option<int>
    var lastStoreTime: Option<int>
    /** The calls of program code this store has made. */
    var invoked: seq<Invocation>

    function Cfg(): Config
    {
      Config(if src then SrcStore else LibStore, isCachable, cacheTimeoutSeconds)
    }

    function Abs(): StoreState
      reads this
    {
      StoreState(data, previous, actions, listeners, loaders, transformers,
                 isCached, isLoading, lastLoadTime, lastStoreTime, invoked)
    }

    /** Every registry holds at most one handler per name. */
    predicate Valid()
      reads this
    {
      UniqueHandlers(Abs())
    }

    /** `new Store(options)` (with `src`, the src class), or a `GenericDataStore` with `generic`. */
    constructor (options: StoreOptions, src: bool, generic: bool)
      ensures this.name == options.name && this.src == src && this.generic == generic
      ensures isCachable == FlagOf(options.isCachable) && persistCache == FlagOf(options.persistCache)
      ensures cacheTimeoutSeconds == TimeoutOf(options.cacheTimeoutSeconds)
      ensures cachePrefix == PrefixOf(options.cachePrefix)
      ensures Abs() == Initial() && Valid()
    {
      this.name := options.name;
      this.src := src;
      this.generic := generic;
      isCachable := FlagOf(options.isCachable);
      isCached := false;
      persistCache := FlagOf(options.persistCache);
      cacheTimeoutSeconds := TimeoutOf(options.cacheTimeoutSeconds);
      cachePrefix := PrefixOf(options.cachePrefix);
      isLoading := false;
      loaders := [];
      actions := [];
      listeners := [];
      transformers := [];
      lastLoadTime := None;
      lastStoreTime := None;
      data := Undefined;
      previous := Undefined;
      invoked := [];
    }

    /**
     * `getData(clone)`: the lib `Store` returns a deep copy when asked; the
     * src store and both `GenericDataStore`s ignore the argument.
     */
    function GetData(clone: bool): (r: Value)
      reads this
      ensures !clone || src || generic ==> r == data
      ensures clone && !src && !generic ==>
                Plain(r) && Stringify(r) == Stringify(data) && Encode(r, false) == Encode(data, false)
    {
      if clone && !src && !generic then Snapshot(data) else data
    }

    predicate IsDirty(shallow: bool)
      reads this
    {
      StoreSpec.IsDirty(Cfg().kind, data, previous, shallow)
    }

    predicate IsCacheStale(now: int)
      reads this
    {
      StoreSpec.IsCacheStale(Cfg(), Abs(), now)
    }

    /** `acceptDirtyData`: the data becomes the previous state, so the store is clean. */
    method AcceptDirtyData()
      modifies this
      ensures Abs() == Accept(old(Abs()))
      ensures !IsDirty(true) && !IsDirty(false)
    {
      previous := Snapshot(data);
      SnapshotIsClean(data);
    }

    /** `executeListeners`: when dirty, each listener is called once, in order, with the change state. */
    method ExecuteListeners() returns (r: Result<Value, Error>)
      modifies this
      ensures var x := StoreSpec.ExecuteListeners(Cfg().kind, old(Abs()));
              Abs() == x.state && r == x.result
    {
      var k := Cfg().kind;
      if !StoreSpec.IsDirty(k, data, previous, true) {
        return Ok(Undefined);
      }
      var p := ListenerView(k, previous, true);
      if p.Err? {
        return Err(p.error);
      }
      var c := ListenerView(k, data, true);
      if c.Err? {
        return Err(c.error);
      }
      var calls := NotifyListeners(listeners, ListenerParams(ChangeState(c.value, p.value)));
      invoked := invoked + calls;
      r := Ok(Undefined);
    }

    /** `setData(data)`, with the store time `now`. */
    method SetData(d: Value, now: int) returns (r: Result<Value, Error>)
      modifies this
      ensures var x := StoreSpec.SetData(Cfg(), old(Abs()), d, now);
              Abs() == x.state && r == x.result
    {
      RefusesFunctions(Cfg().kind, d);
      if Refuses(Cfg().kind, d) {
        return Err(FunctionStored);
      }
      previous := Snapshot(data);
      data := d;
      lastStoreTime := Some(now);
      assert Abs() == old(Abs()).(previous := Snapshot(old(data)), data := d, lastStoreTime := Some(now));
      r := ExecuteListeners();
    }

    /** `setPreviousData(previous)` of the src store. */
    method SetPreviousData(p: Value)
      modifies this
      ensures Abs() == old(Abs()).(previous := p)
    {
      previous := p;
    }

    // -------------------------------------------------------------------------
    // The registries
    // -------------------------------------------------------------------------

    /** `createListener(name, callback)`. */
    method CreateListener(name: string, callback: Callback) returns (ok: bool)
      modifies this
      ensures ok
      ensures Abs() == old(Abs()).(listeners := Upsert(old(listeners), Action(name, callback, LISTENER)))
      ensures old(Valid()) ==> Valid() && Count(listeners, name) == 1 && Find(listeners, name) == Some(Action(name, callback, LISTENER))
      ensures Others(listeners, name) == Others(old(listeners), name)
    {
      var a := NewAction(name, callback, LISTENER);
      UpsertSteps(listeners, a, old(Valid()));
      if Find(listeners, name).Some? {
        listeners := RemoveFirst(listeners, name);
      }
      listeners := listeners + [a];
      ok := true;
    }

    /** `createAction(name, callback, inline)`. */
    method CreateAction(name: string, callback: Callback, inline: bool) returns (ok: bool)
      modifies this
      ensures var a := Action(name, callback, if inline then INLINE_ACTION else ACTION);
              ok && Abs() == old(Abs()).(actions := Upsert(old(actions), a))
              && (old(Valid()) ==> Valid() && Count(actions, name) == 1 && Find(actions, name) == Some(a))
      ensures Others(actions, name) == Others(old(actions), name)
    {
      var a := NewAction(name, callback, if inline then INLINE_ACTION else ACTION);
      UpsertSteps(actions, a, old(Valid()));
      if Find(actions, name).Some? {
        actions := RemoveFirst(actions, name);
      }
      actions := actions + [a];
      ok := true;
    }

    /** `createLoader(name, callback)`. */
    method CreateLoader(name: string, callback: Callback) returns (ok: bool)
      modifies this
      ensures ok
      ensures Abs() == old(Abs()).(loaders := Upsert(old(loaders), Action(name, callback, LOADER)))
      ensures old(Valid()) ==> Valid() && Count(loaders, name) == 1 && Find(loaders, name) == Some(Action(name, callback, LOADER))
      ensures Others(loaders, name) == Others(old(loaders), name)
    {
      var a := NewAction(name, callback, LOADER);
      UpsertSteps(loaders, a, old(Valid()));
      if Find(loaders, name).Some? {
        loaders := RemoveFirst(loaders, name);
      }
      loaders := loaders + [a];
      ok := true;
    }

    /** `createTransformer(name, callback)`. */
    method CreateTransformer(name: string, callback: Callback) returns (ok: bool)
      modifies this
      ensures ok
      ensures Abs() == old(Abs()).(transformers := Upsert(old(transformers), Action(name, callback, TRANSFORMER)))
      ensures old(Valid()) ==> Valid() && Count(transformers, name) == 1 && Find(transformers, name) == Some(Action(name, callback, TRANSFORMER))
      ensures Others(transformers, name) == Others(old(transformers), name)
    {
      var a := NewAction(name, callback, TRANSFORMER);
      UpsertSteps(transformers, a, old(Valid()));
      if Find(transformers, name).Some? {
        transformers := RemoveFirst(transformers, name);
      }
      transformers := transformers + [a];
      ok := true;
    }

    /** `removeListener(name)`. */
    method RemoveListener(name: string) returns (ok: bool)
      modifies this
      ensures ok && Abs() == old(Abs()).(listeners := RemoveFirst(old(listeners), name))
      ensures old(Valid()) ==> Valid() && forall i :: 0 <= i < |listeners| ==> listeners[i].name != name
    {
      if old(Valid()) {
        RemoveFirstUnique(listeners, name);
      }
      listeners := RemoveFirst(listeners, name);
      ok := true;
    }

    /** `removeAction(name)`. */
    method RemoveAction(name: string) returns (ok: bool)
      modifies this
      ensures ok && Abs() == old(Abs()).(actions := RemoveFirst(old(actions), name))
      ensures old(Valid()) ==> Valid() && forall i :: 0 <= i < |actions| ==> actions[i].name != name
    {
      if old(Valid()) {
        RemoveFirstUnique(actions, name);
      }
      actions := RemoveFirst(actions, name);
      ok := true;
    }

    /** `removeLoader(name)`. */
    method RemoveLoader(name: string) returns (ok: bool)
      modifies this
      ensures ok && Abs() == old(Abs()).(loaders := RemoveFirst(old(loaders), name))
      ensures old(Valid()) ==> Valid() && forall i :: 0 <= i < |loaders| ==> loaders[i].name != name
    {
      if old(Valid()) {
        RemoveFirstUnique(loaders, name);
      }
      loaders := RemoveFirst(loaders, name);
      ok := true;
    }

    /** `removeTransformer(name)`. */
    method RemoveTransformer(name: string) returns (ok: bool)
      modifies this
      ensures ok && Abs() == old(Abs()).(transformers := RemoveFirst(old(transformers), name))
      ensures old(Valid()) ==> Valid() && forall i :: 0 <= i < |transformers| ==> transformers[i].name != name
    {
      if old(Valid()) {
        RemoveFirstUnique(transformers, name);
      }
      transformers := RemoveFirst(transformers, name);
      ok := true;
    }

    // -------------------------------------------------------------------------
    // execute and chain
    // -------------------------------------------------------------------------

    /** `execute(name, ...args)` up to the awaited call. */
    method Begin(name: string, args: seq<Value>, now: int) returns (p: Pending)
      modifies this
      ensures var b := StoreSpec.Begin(Cfg(), old(Abs()), name, args, now);
              Abs() == b.state && p == b.pending
    {
      var found := NoOpAction();
      var h := FindEventHandler(actions, loaders, transformers, name);
      if h.Some? {
        found := h.value;
      }
      var params := args;
      if found.actionType == TRANSFORMER {
        params := [data] + args;
      }
      var a := found;
      var starts := false;
      if found.actionType == LOADER {
        if isLoading || !IsCacheStale(now) {
          a := NoOpAction();
        } else {
          isLoading := true;
          starts := true;
        }
      }
      if a.actionType == INLINE_ACTION {
        if GetProp(data, a.name).Function? {
          invoked := invoked + [MethodCall(a.name, params)];
          p := Pending(a, params, starts, None);
        } else {
          p := Pending(a, params, starts, Some(TypeError("not a function: " + a.name)));
        }
      } else {
        var e := CreateExecutor(a, params);
        invoked := invoked + Calls(e);
        p := Pending(a, e.params, starts, None);
      }
    }

    /** `execute` after the awaited call: store a loader's result or run the listeners, then the `finally`. */
    method Finish(p: Pending, outcome: Outcome, now: int) returns (r: Result<Value, Error>)
      modifies this
      ensures var f := StoreSpec.Finish(Cfg(), old(Abs()), p, outcome, now);
              Abs() == f.state && r == f.result
    {
      r := CallResult(p, outcome);
      if r.Ok? {
        r := Complete(p.action, r.value, now);
      }
      if p.startedLoad {
        isLoading := false;
      }
    }

    /** What follows a successful call of `a` that returned `v`. */
    method Complete(a: Action, v: Value, now: int) returns (r: Result<Value, Error>)
      modifies this
      ensures var x := StoreSpec.Complete(Cfg(), old(Abs()), a, v, now);
              Abs() == x.state && r == x.result
    {
      r := Ok(v);
      if a.actionType == LOADER {
        lastLoadTime := Some(now);
        if isCachable {
          isCached := true;
        }
        var d := SetData(v, now);
        if d.Err? {
          r := d;
        } else {
          AcceptDirtyData();
        }
      } else {
        var l := ExecuteListeners();
        if l.Err? {
          r := l;
        }
      }
    }

    /** A whole `execute(name, ...args)`, the callback behaving as `outcome` says. */
    method Execute(name: string, args: seq<Value>, outcome: Outcome, now: int) returns (r: Result<Value, Error>)
      modifies this
      ensures var x := StoreSpec.Execute(Cfg(), old(Abs()), name, args, outcome, now);
              Abs() == x.state && r == x.result
    {
      var p := Begin(name, args, now);
      r := Finish(p, outcome, now);
    }

    /** Step `i` of `chain`: the step executed, and what is left of the whole chain. */
    method ChainStep(defs: seq<ExecutableOptions>, outcomes: seq<Outcome>, now: int, i: nat, forward: bool, last: Value,
                     results: seq<Value>, done: seq<ExecutableOptions>) returns (x: Result<Value, Error>)
      requires |outcomes| == |defs| && i < |defs|
      modifies this
      ensures var d := Forwarded(defs[i], forward, last);
              var whole := Combine(results, done, ChainFrom(Cfg(), old(Abs()), defs[i..], outcomes[i..], now, forward, last));
              (x.Err? ==> whole == Chained(Abs(), done + [d] + defs[i + 1..], Err(x.error)))
              && (x.Ok? ==>
                    whole == Combine(results + [x.value], done + [d],
                                     ChainFrom(Cfg(), Abs(), defs[i + 1..], outcomes[i + 1..], now, d.forwardResult, x.value)))
    {
      var d := Forwarded(defs[i], forward, last);
      assert defs[i..][0] == defs[i] && defs[i..][1..] == defs[i + 1..];
      assert outcomes[i..][0] == outcomes[i] && outcomes[i..][1..] == outcomes[i + 1..];
      ChainResume(Cfg(), Abs(), defs[i..], outcomes[i..], now, forward, last, results, done);
      x := Execute(d.action, ParamsOf(d), outcomes[i], now);
    }

    /**
     * `chain(actions)`, step `i` behaving as `outcomes[i]` says. Besides the
     * results it returns the step definitions as the loop leaves them (it
     * rewrites the parameters of a step that receives a forwarded result).
     */
    method Chain(defs: seq<ExecutableOptions>, outcomes: seq<Outcome>, now: int)
      returns (r: Result<seq<Value>, Error>, after: seq<ExecutableOptions>)
      requires |outcomes| == |defs|
      modifies this
      ensures var x := StoreSpec.Chain(Cfg(), old(Abs()), defs, outcomes, now);
              Abs() == x.state && r == x.result && after == x.defs
    {
      var results: seq<Value> := [];
      var done: seq<ExecutableOptions> := [];
      var last := Null;
      var forward := false;
      ghost var whole := StoreSpec.Chain(Cfg(), old(Abs()), defs, outcomes, now);
      assert defs[0..] == defs && outcomes[0..] == outcomes;
      CombineNothing(whole);
      var i := 0;
      while i < |defs|
        invariant 0 <= i <= |defs|
        invariant Combine(results, done, ChainFrom(Cfg(), Abs(), defs[i..], outcomes[i..], now, forward, last))
                  == whole
      {
        var d := Forwarded(defs[i], forward, last);
        var x := ChainStep(defs, outcomes, now, i, forward, last, results, done);
        if x.Err? {
          return Err(x.error), done + [d] + defs[i + 1..];
        }
        results := results + [x.value];
        done := done + [d];
        last := x.value;
        forward := d.forwardResult;
        i := i + 1;
      }
      ChainEnds(Cfg(), Abs(), defs[i..], outcomes[i..], now, forward, last, results, done);
      return Ok(results), done;
    }

    // -------------------------------------------------------------------------
    // Observable src stores
    // -------------------------------------------------------------------------

    /**
     * The part of `observableStore` that runs on the new store: every
     * decorator is registered, setters are injected on the target and the
     * target becomes the data.
     */
    method Observe(target: Value, decorators: seq<Decorator>, now: int) returns (r: Result<Value, Error>)
      requires src
      modifies this
      ensures var x := ObserveSrc(Cfg(), old(Abs()), target, decorators, now);
              Abs() == x.state && r == x.result
      ensures old(Valid()) ==> Valid()
    {
      ghost var v := old(Valid());
      var i := 0;
      while i < |decorators|
        invariant 0 <= i <= |decorators|
        invariant Abs() == Decorate(Cfg().kind, old(Abs()), decorators[..i])
        invariant v ==> Valid()
      {
        assert decorators[..i + 1][..i] == decorators[..i];
        Register(decorators[i]);
        i := i + 1;
      }
      assert decorators[..|decorators|] == decorators;
      r := SetData(InjectTarget(target, false), now);
    }

    /** The `switch` of `observableStore` for one decorator. */
    method Register(dec: Decorator)
      modifies this
      ensures Abs() == StoreSpec.Register(Cfg().kind, old(Abs()), dec)
      ensures old(Valid()) ==> Valid()
    {
      if Valid() {
        RegisterSpec(Cfg().kind, Abs(), dec);
      }
      var ok;
      match dec.actionType
      case ACTION => ok := CreateAction(dec.key, dec.callback, false);
      case INLINE_ACTION => ok := CreateAction(dec.key, dec.callback, true);
      case LOADER => ok := CreateLoader(dec.key, dec.callback);
      case LISTENER => ok := CreateListener(dec.key, dec.callback);
      case TRANSFORMER => ok := CreateTransformer(dec.key, dec.callback);
    }

    /**
     * `obj[key] = x` on the object at `path` in the data: through the
     * injected setter when the property is watched. As written the setter
     * records a copy of the owning object as previous; this records the data.
     */
    method Assign(path: seq<Step>, key: string, x: Value) returns (r: Result<Value, Error>)
      requires AtObject(data, path)
      modifies this
      ensures var y := StoreSpec.Assign(Cfg(), old(Abs()), path, key, x);
              Abs() == y.state && r == y.result
    {
      AssignPaths(Cfg(), Abs(), path, key, x);
      var ps := At(data, path).value.props;
      if !Watched(ps, key) {
        data := Written(data, path, key, x);
        return Ok(Undefined);
      }
      if ps[PropIndex(ps, key).value].value == x {
        return Ok(Undefined);
      }
      r := AssignWatched(path, key, x);
    }

    /** The setter of a watched property given a new value: the listeners run and the change is accepted. */
    method AssignWatched(path: seq<Step>, key: string, x: Value) returns (r: Result<Value, Error>)
      requires AtObject(data, path)
      requires var ps := At(data, path).value.props;
               Watched(ps, key) && ps[PropIndex(ps, key).value].value != x
      modifies this
      ensures var l := StoreSpec.ExecuteListeners(Cfg().kind, old(Abs()).(previous := SetterPrevious(old(data), path, true),
                                                                          data := Written(old(data), path, key, x)));
              (l.result.Err? ==> Abs() == l.state && r == l.result)
              && (l.result.Ok? ==> Abs() == Accept(l.state) && r == Ok(Undefined))
    {
      SetPreviousData(SetterPrevious(data, path, true));
      data := Written(data, path, key, x);
      r := ExecuteListeners();
      if r.Ok? {
        AcceptDirtyData();
        r := Ok(Undefined);
      }
    }
  }
}
