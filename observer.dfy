/**
 * The observer (lib/core/StateObserver.js, src/core/StateObserver.ts): a
 * `BaseStore` whose data is an object with injected accessors. Its data can
 * only change through those accessors and the patched array methods; it has
 * actions and listeners but no loaders, transformers, cache or loading flag.
 * Every method is proved to leave the observer in the state the functions of
 * `StoreSpec` compute for the `Observer` kind.
 */
module Observers {
  import opened Wrappers
  import opened Values
  import opened Util
  import opened Actions
  import opened Registry
  import opened Tree
  import opened StoreSpec

  class StateObserver {
    const name: string

    var data: Value
    var previous: Value
    var actions: seq<Action>
    var listeners: seq<Action>
    /** The calls of program code this observer has made. */
    var invoked: seq<Invocation>

    function Cfg(): Config
    {
      Config(Observer, false, -1)
    }

    /** The observer as a store state: the parts it does not have are constant. */
    function Abs(): StoreState
      reads this
    {
      StoreState(data, previous, actions, listeners, [], [], false, false, None, None, invoked)
    }

    /** Every registry holds at most one handler per name. */
    predicate Valid()
      reads this
    {
      UniqueHandlers(Abs())
    }

    constructor (name: string)
      ensures this.name == name && Abs() == Initial() && Valid()
    {
      this.name := name;
      data := Undefined;
      previous := Undefined;
      actions := [];
      listeners := [];
      invoked := [];
    }

    /** `setData(data)` always throws: an observer's data is changed through its accessors only. */
    method SetData(d: Value) returns (r: Result<Value, Error>)
      ensures r == Err(ObserverDataReadOnly)
      ensures var x := StoreSpec.SetData(Cfg(), Abs(), d, 0); x.state == Abs() && x.result == r
    {
      r := Err(ObserverDataReadOnly);
    }

    predicate IsDirty(shallow: bool)
      reads this
    {
      StoreSpec.IsDirty(Observer, data, previous, shallow)
    }

    /** `acceptDirtyData`: the data becomes the previous state, so the observer is clean. */
    method AcceptDirtyData()
      modifies this
      ensures Abs() == Accept(old(Abs()))
      ensures !IsDirty(true) && !IsDirty(false)
    {
      previous := Snapshot(data);
      SnapshotIsClean(data);
    }

    /** `setPreviousData(previous)`. */
    method SetPreviousData(p: Value)
      modifies this
      ensures Abs() == old(Abs()).(previous := p)
    {
      previous := p;
    }

    /** `executeListeners`: when dirty, each listener is called once, in order, with the stripped change state. */
    method ExecuteListeners() returns (r: Result<Value, Error>)
      modifies this
      ensures var x := StoreSpec.ExecuteListeners(Observer, old(Abs()));
              Abs() == x.state && r == x.result
    {
      if !StoreSpec.IsDirty(Observer, data, previous, true) {
        return Ok(Undefined);
      }
      var p := ListenerView(Observer, previous, true);
      if p.Err? {
        return Err(p.error);
      }
      var c := ListenerView(Observer, data, true);
      if c.Err? {
        return Err(c.error);
      }
      var params := ListenerParams(ChangeState(c.value, p.value));
      var ls := listeners;
      var calls: seq<Invocation> := [];
      var i := 0;
      while i < |ls|
        invariant 0 <= i <= |ls|
        invariant calls == Notify(ls[..i], params)
      {
        assert ls[..i + 1][..i] == ls[..i];
        calls := calls + Calls(CreateExecutor(ls[i], params));
        i := i + 1;
      }
      assert ls[..|ls|] == ls;
      invoked := invoked + calls;
      r := Ok(Undefined);
    }

    /** `createListener(name, callback)`. */
    method CreateListener(name: string, callback: Callback) returns (ok: bool)
      modifies this
      ensures ok
      ensures Abs() == old(Abs()).(listeners := Upsert(old(listeners), Action(name, callback, LISTENER)))
      ensures old(Valid()) ==> Valid() && Count(listeners, name) == 1 && Find(listeners, name) == Some(Action(name, callback, LISTENER))
      ensures Others(listeners, name) == Others(old(listeners), name)
    {
      var a := NewAction(name, callback, LISTENER);
      UpsertSteps(listeners, a, old(Valid()));
      if Find(listeners, name).Some? {
        listeners := RemoveFirst(listeners, name);
      }
      listeners := listeners + [a];
      ok := true;
    }

    /** `createAction(name, callback, inline)`. */
    method CreateAction(name: string, callback: Callback, inline: bool) returns (ok: bool)
      modifies this
      ensures var a := Action(name, callback, if inline then INLINE_ACTION else ACTION);
              ok && Abs() == old(Abs()).(actions := Upsert(old(actions), a))
              && (old(Valid()) ==> Valid() && Count(actions, name) == 1 && Find(actions, name) == Some(a))
      ensures Others(actions, name) == Others(old(actions), name)
    {
      var a := NewAction(name, callback, if inline then INLINE_ACTION else ACTION);
      UpsertSteps(actions, a, old(Valid()));
      if Find(actions, name).Some? {
        actions := RemoveFirst(actions, name);
      }
      actions := actions + [a];
      ok := true;
    }

    /** `removeListener(name)`. */
    method RemoveListener(name: string) returns (ok: bool)
      modifies this
      ensures ok && Abs() == old(Abs()).(listeners := RemoveFirst(old(listeners), name))
      ensures old(Valid()) ==> Valid() && forall i :: 0 <= i < |listeners| ==> listeners[i].name != name
    {
      if old(Valid()) {
        RemoveFirstUnique(listeners, name);
      }
      listeners := RemoveFirst(listeners, name);
      ok := true;
    }

    /** `removeAction(name)`. */
    method RemoveAction(name: string) returns (ok: bool)
      modifies this
      ensures ok && Abs() == old(Abs()).(actions := RemoveFirst(old(actions), name))
      ensures old(Valid()) ==> Valid() && forall i :: 0 <= i < |actions| ==> actions[i].name != name
    {
      if old(Valid()) {
        RemoveFirstUnique(actions, name);
      }
      actions := RemoveFirst(actions, name);
      ok := true;
    }

    /**
     * `execute(name, ...args)` of `BaseStore`: only actions are searched; an
     * inline action calls the data's method of that name with the arguments
     * spread, any other the callback; then the listeners run.
     */
    method Execute(name: string, args: seq<Value>, outcome: Outcome) returns (r: Result<Value, Error>)
      modifies this
      ensures var x := StoreSpec.Execute(Cfg(), old(Abs()), name, args, outcome, 0);
              Abs() == x.state && r == x.result
    {
      var a := NoOpAction();
      var h := Find(actions, name);
      if h.Some? {
        a := h.value;
      }
      var p: Pending;
      if a.actionType == INLINE_ACTION {
        if GetProp(data, a.name).Function? {
          invoked := invoked + [MethodCall(a.name, args)];
          p := Pending(a, args, false, None);
        } else {
          p := Pending(a, args, false, Some(TypeError("not a function: " + a.name)));
        }
      } else {
        var e := CreateExecutor(a, args);
        invoked := invoked + Calls(e);
        p := Pending(a, e.params, false, None);
      }
      r := CallResult(p, outcome);
      if r.Ok? {
        var l := ExecuteListeners();
        if l.Err? {
          r := l;
        }
      }
    }

    /** Step `i` of `chain`: the step executed, and what is left of the whole chain. */
    method ChainStep(defs: seq<ExecutableOptions>, outcomes: seq<Outcome>, i: nat, forward: bool, last: Value,
                     results: seq<Value>, done: seq<ExecutableOptions>) returns (x: Result<Value, Error>)
      requires |outcomes| == |defs| && i < |defs|
      modifies this
      ensures var d := Forwarded(defs[i], forward, last);
              var whole := Combine(results, done, ChainFrom(Cfg(), old(Abs()), defs[i..], outcomes[i..], 0, forward, last));
              (x.Err? ==> whole == Chained(Abs(), done + [d] + defs[i + 1..], Err(x.error)))
              && (x.Ok? ==>
                    whole == Combine(results + [x.value], done + [d],
                                     ChainFrom(Cfg(), Abs(), defs[i + 1..], outcomes[i + 1..], 0, d.forwardResult, x.value)))
    {
      var d := Forwarded(defs[i], forward, last);
      assert defs[i..][0] == defs[i] && defs[i..][1..] == defs[i + 1..];
      assert outcomes[i..][0] == outcomes[i] && outcomes[i..][1..] == outcomes[i + 1..];
      ChainResume(Cfg(), Abs(), defs[i..], outcomes[i..], 0, forward, last, results, done);
      x := Execute(d.action, ParamsOf(d), outcomes[i]);
    }

    /** `chain(actions)`, step `i` behaving as `outcomes[i]` says; see `Stores.Store.Chain`. */
    method Chain(defs: seq<ExecutableOptions>, outcomes: seq<Outcome>)
      returns (r: Result<seq<Value>, Error>, after: seq<ExecutableOptions>)
      requires |outcomes| == |defs|
      modifies this
      ensures var x := StoreSpec.Chain(Cfg(), old(Abs()), defs, outcomes, 0);
              Abs() == x.state && r == x.result && after == x.defs
    {
      var results: seq<Value> := [];
      var done: seq<ExecutableOptions> := [];
      var last := Null;
      var forward := false;
      ghost var whole := StoreSpec.Chain(Cfg(), old(Abs()), defs, outcomes, 0);
      assert defs[0..] == defs && outcomes[0..] == outcomes;
      CombineNothing(whole);
      var i := 0;
      while i < |defs|
        invariant 0 <= i <= |defs|
        invariant Combine(results, done, ChainFrom(Cfg(), Abs(), defs[i..], outcomes[i..], 0, forward, last))
                  == whole
      {
        var d := Forwarded(defs[i], forward, last);
        var x := ChainStep(defs, outcomes, i, forward, last, results, done);
        if x.Err? {
          return Err(x.error), done + [d] + defs[i + 1..];
        }
        results := results + [x.value];
        done := done + [d];
        last := x.value;
        forward := d.forwardResult;
        i := i + 1;
      }
      ChainEnds(Cfg(), Abs(), defs[i..], outcomes[i..], 0, forward, last, results, done);
      return Ok(results), done;
    }

    /** The `switch` of `observableStore` for one decorator: loaders and transformers are ignored. */
    method Register(dec: Decorator)
      modifies this
      ensures Abs() == StoreSpec.Register(Observer, old(Abs()), dec)
      ensures old(Valid()) ==> Valid()
    {
      if Valid() {
        RegisterSpec(Observer, Abs(), dec);
      }
      var ok;
      match dec.actionType
      case ACTION => ok := CreateAction(dec.key, dec.callback, false);
      case INLINE_ACTION => ok := CreateAction(dec.key, dec.callback, true);
      case LISTENER => ok := CreateListener(dec.key, dec.callback);
      case _ =>
    }

    /**
     * The part of `observableStore` that runs on the new observer: every
     * decorator is registered, accessors and array wrappers are injected on
     * the target, the target becomes the data and a deep copy of it the
     * previous state.
     */
    method Observe(target: Value, decorators: seq<Decorator>)
      modifies this
      ensures Abs() == ObserveLib(old(Abs()), target, decorators)
      ensures old(Valid()) ==> Valid()
      ensures !IsDirty(true) && !IsDirty(false)
    {
      ghost var v := old(Valid());
      var i := 0;
      while i < |decorators|
        invariant 0 <= i <= |decorators|
        invariant Abs() == Decorate(Observer, old(Abs()), decorators[..i])
        invariant v ==> Valid()
      {
        assert decorators[..i + 1][..i] == decorators[..i];
        Register(decorators[i]);
        i := i + 1;
      }
      assert decorators[..|decorators|] == decorators;
      data := InjectTarget(target, true);
      previous := Snapshot(data);
    }

    /**
     * `obj[key] = x` on the object at `path` in the data: through the
     * injected setter when the property is watched. As written the setter
     * records a copy of the owning object as previous; this records the data.
     */
    method Assign(path: seq<Step>, key: string, x: Value) returns (r: Result<Value, Error>)
      requires AtObject(data, path)
      modifies this
      ensures var y := StoreSpec.Assign(Cfg(), old(Abs()), path, key, x);
              Abs() == y.state && r == y.result
    {
      AssignPaths(Cfg(), Abs(), path, key, x);
      var ps := At(data, path).value.props;
      if !Watched(ps, key) {
        data := Written(data, path, key, x);
        return Ok(Undefined);
      }
      if ps[PropIndex(ps, key).value].value == x {
        return Ok(Undefined);
      }
      r := AssignWatched(path, key, x);
    }

    /** The setter of a watched property given a new value; see `Stores.Store.AssignWatched`. */
    method AssignWatched(path: seq<Step>, key: string, x: Value) returns (r: Result<Value, Error>)
      requires AtObject(data, path)
      requires var ps := At(data, path).value.props;
               Watched(ps, key) && ps[PropIndex(ps, key).value].value != x
      modifies this
      ensures var l := StoreSpec.ExecuteListeners(Observer, old(Abs()).(previous := SetterPrevious(old(data), path, true),
                                                                       data := Written(old(data), path, key, x)));
              (l.result.Err? ==> Abs() == l.state && r == l.result)
              && (l.result.Ok? ==> Abs() == Accept(l.state) && r == Ok(Undefined))
    {
      SetPreviousData(SetterPrevious(data, path, true));
      data := Written(data, path, key, x);
      r := ExecuteListeners();
      if r.Ok? {
        AcceptDirtyData();
        r := Ok(Undefined);
      }
    }

    /**
     * A mutator called on the array at `path`: the patched method when the
     * array was patched by the injection, the native one otherwise.
     */
    method Mutate(path: seq<Step>, call: ArrayCall) returns (r: Result<Value, Error>)
      requires AtArray(data, path)
      modifies this
      ensures var y := StoreSpec.Mutate(Cfg(), old(Abs()), path, call);
              Abs() == y.state && r == y.result
    {
      var a := At(data, path).value;
      if !a.wrapped {
        var m := Native(a.items, call);
        data := Update(data, path, Arr(m.items, false));
        return Ok(m.result);
      }
      var m := Patched(a.items, call);
      data := Update(data, path, Arr(m.items, true));
      if |m.items| == |a.items| {
        return Ok(m.result);
      }
      r := ExecuteListeners();
      if r.Ok? {
        r := Ok(m.result);
      }
    }
  }
}
