/**
 * What the stores do, as functions of an explicit state.
 *
 * Three implementations share one state machine and differ where the code
 * differs: the lib `Store` (and `GenericDataStore`, lib/core/Store.js), the
 * src `Store` (src/core/Store.ts), and the lib `StateObserver`, which is a
 * `BaseStore` (lib/core/StateObserver.js). The classes in the other modules
 * are proved against these functions.
 *
 * Callbacks are opaque: what a call returns or throws is an `Outcome` the
 * caller supplies, and every call of program code is appended to `invoked`,
 * so that contracts can count listener firings. The clock is a parameter
 * `now` (milliseconds). An `execute` is split into `Begin` (everything up to
 * the awaited call) and `Finish` (everything after it), so that overlapping
 * executions can be written down.
 */
module StoreSpec {
  import opened Wrappers
  import opened Values
  import opened Util
  import opened Actions
  import opened Registry
  import opened Tree

  /** Which implementation runs. */
  datatype Kind = LibStore | SrcStore | Observer

  /** The options fixed at construction that the behaviour depends on. */
  datatype Config = Config(kind: Kind, isCachable: bool, cacheTimeoutSeconds: int)

  datatype StoreState = StoreState(
    data: Value,
    previous: Value,
    actions: seq<Action>,
    listeners: seq<Action>,
    loaders: seq<Action>,
    transformers: seq<Action>,
    isCached: bool,
    isLoading: bool,
    lastLoadTime: Option<int>,
    lastStoreTime: Option<int>,
    invoked: seq<Invocation>)

  /** The state of a store nothing has been done to. */
  function Initial(): StoreState
  {
    StoreState(Undefined, Undefined, [], [], [], [], false, false, None, None, [])
  }

  /** A state change together with what the call returned or threw. */
  datatype Ran = Ran(state: StoreState, result: Result<Value, Error>)

  // ---------------------------------------------------------------------------
  // Snapshots and the dirty check
  // ---------------------------------------------------------------------------

  /**
   * The snapshot `acceptDirtyData` and `setData` take, as written:
   * `getData() ? deepClone(getData()) : null`.
   */
  function SnapshotAsWritten(d: Value): Value
  {
    if Truthy(d) then DeepClone(d) else Null
  }

  /** The snapshot the dirty check needs: a deep copy of the data, falsy or not. */
  function Snapshot(d: Value): (r: Value)
    ensures Plain(r)
    ensures Stringify(r) == Stringify(d) && Encode(r, false) == Encode(d, false)
    ensures TypeOf(r) == TypeOf(d) && Truthy(r) == Truthy(d)
  {
    DeepCloneIsPlain(d);
    EncodeDeepClone(d, true);
    EncodeDeepClone(d, false);
    DeepClone(d)
  }

  /**
   * `isDirty`: the lib stores compare the Map-aware encodings (or, with
   * `shallow` false, use `deepEquals`); the src store compares plain
   * `JSON.stringify` encodings, which write a Map as `{}`.
   */
  predicate IsDirty(k: Kind, data: Value, previous: Value, shallow: bool)
  {
    match k
    case SrcStore => Encode(data, false) != Encode(previous, false)
    case _ => if shallow then !ShallowEquals(data, previous) else !DeepEquals(data, previous)
  }

  /** Data compared with its own snapshot is never dirty, in either mode of any store. */
  lemma SnapshotIsClean(d: Value)
    ensures forall k, shallow :: !IsDirty(k, d, Snapshot(d), shallow)
  {
    var p := Snapshot(d);
    assert ShallowEquals(d, p);
    assert DeepEqualsWith(d, p, true);
  }

  /** `acceptDirtyData`, with the corrected snapshot. */
  function Accept(s: StoreState): (r: StoreState)
    ensures r == s.(previous := r.previous)
    ensures forall k, shallow :: !IsDirty(k, r.data, r.previous, shallow)
  {
    SnapshotIsClean(s.data);
    s.(previous := Snapshot(s.data))
  }

  /** `acceptDirtyData` as written. */
  function AcceptAsWritten(s: StoreState): StoreState
  {
    s.(previous := SnapshotAsWritten(s.data))
  }

  /** As written, accepting falsy data leaves the store dirty, so every later listener run fires again. */
  lemma AcceptAsWrittenLeavesFalsyDirty(k: Kind)
    ensures var s := AcceptAsWritten(Initial().(data := Num(0)));
            IsDirty(k, s.data, s.previous, true)
    ensures var s := Accept(Initial().(data := Num(0)));
            !IsDirty(k, s.data, s.previous, true)
  {
    var s := AcceptAsWritten(Initial().(data := Num(0)));
    assert s.previous == Null;
    assert Encode(Num(0), true) == Some(JNum(0));
    assert Encode(Null, true) == Some(JNull);
    assert Encode(Num(0), false) == Some(JNum(0));
    assert Encode(Null, false) == Some(JNull);
  }

  // ---------------------------------------------------------------------------
  // Listener runs
  // ---------------------------------------------------------------------------

  /** The src store's listener clone: `x ? parse(stringify(deepClone(x), replacer), reviver) : null`. */
  function SrcClone(x: Value): Result<Value, Error>
  {
    if !Truthy(x) then Ok(Null)
    else match Stringify(DeepClone(x))
      case None => Err(SyntaxError)
      case Some(j) => ParseJson(j)
  }

  /** The extra `deepClone` changes nothing: the src clone is `shallowClone`. */
  lemma SrcCloneIsShallowClone(x: Value)
    ensures SrcClone(x) == ShallowClone(x)
  {
    EncodeDeepClone(x, true);
  }

  /**
   * The snapshot a listener is handed: the clone of the value, and for the
   * observer and the src store the clone with its shadow keys removed
   * (`fixed` chooses the corrected removal).
   */
  function ListenerView(k: Kind, x: Value, fixed: bool): Result<Value, Error>
  {
    var c := if k.SrcStore? then SrcClone(x) else ShallowClone(x);
    match c
    case Err(e) => Err(e)
    case Ok(v) => Ok(if k.LibStore? then v else Strip(v, fixed))
  }

  /** The observer and the src store hand listeners snapshots without a shadow key at any depth. */
  lemma ViewIsClean(k: Kind, x: Value)
    requires !k.LibStore? && ListenerView(k, x, true).Ok?
    ensures Clean(ListenerView(k, x, true).value)
  {
    var c := if k.SrcStore? then SrcClone(x) else ShallowClone(x);
    StripCleans(c.value);
  }

  /** Values that are falsy or survive JSON are cloned without error; clean ones come back as they are. */
  lemma ViewOfSafe(k: Kind, x: Value, fixed: bool)
    requires !Truthy(x) || JsonSafe(x)
    ensures ListenerView(k, x, fixed).Ok?
    ensures !Truthy(x) ==> ListenerView(k, x, fixed) == Ok(Null)
    ensures Truthy(x) && Clean(x) ==> ListenerView(k, x, fixed) == Ok(x)
  {
    SrcCloneIsShallowClone(x);
    if Truthy(x) {
      ShallowCloneOfSafe(x);
      if Clean(x) { StripOfClean(x, fixed); }
    }
  }

  /** The `{ newState, previousState }` object listeners receive. */
  function ChangeState(newState: Value, previousState: Value): (r: Value)
    ensures GetProp(r, "newState") == newState && GetProp(r, "previousState") == previousState
  {
    var ps := [Prop("newState", newState, false), Prop("previousState", previousState, false)];
    assert PropIndex(ps, "newState") == Some(0);
    assert ps[1..][0].key == "previousState";
    assert PropIndex(ps, "previousState") == Some(1);
    GetPropFirst(ps, "newState");
    GetPropFirst(ps, "previousState");
    Obj(ps)
  }

  /** The parameters a listener is called with as written: `createExecutor(listener, [changeState])`. */
  function ListenerParamsAsWritten(change: Value): seq<Value>
  {
    [Arr([change], false)]
  }

  /** The parameters a listener is meant to receive: the change state itself. */
  function ListenerParams(change: Value): seq<Value>
  {
    [change]
  }

  /** As written a listener's argument is a one-element array, so `changeState.newState` reads undefined. */
  lemma ListenerArgumentAsWritten(ns: Value, ps: Value)
    ensures GetProp(ListenerParamsAsWritten(ChangeState(ns, ps))[0], "newState") == Undefined
    ensures GetProp(ListenerParams(ChangeState(ns, ps))[0], "newState") == ns
  {
    assert ParseIndex("newState") == None;
  }

  /** The calls the listener loop makes: each listener's callback once, in registration order. */
  function Notify(listeners: seq<Action>, params: seq<Value>): (r: seq<Invocation>)
    ensures |r| <= |listeners|
    ensures forall i :: 0 <= i < |r| ==> r[i].Call? && r[i].params == params
  {
    if listeners == [] then []
    else Notify(listeners[..|listeners| - 1], params) + Calls(CreateExecutor(listeners[|listeners| - 1], params))
  }

  /** Every listener has a callback of the program's. */
  predicate AllUser(ls: seq<Action>)
  {
    forall i :: 0 <= i < |ls| ==> ls[i].callback.User?
  }

  /** With program callbacks, listener `i` makes call `i`, and there is one call per listener. */
  lemma {:induction false} NotifyEach(ls: seq<Action>, params: seq<Value>)
    requires AllUser(ls)
    ensures |Notify(ls, params)| == |ls|
    ensures forall i :: 0 <= i < |ls| ==> Notify(ls, params)[i] == Call(ls[i].callback.id, params)
  {
    if ls != [] {
      var init := ls[..|ls| - 1];
      assert AllUser(init) by { assert forall i :: 0 <= i < |init| ==> init[i] == ls[i]; }
      NotifyEach(init, params);
    }
  }

  /**
   * `executeListeners`: nothing when the store is clean; otherwise both
   * snapshots are cloned (a clone that throws ends the run) and every
   * listener is called with the change state. Listener calls are not
   * awaited, so what a listener does cannot fail the run.
   */
  function ExecuteListeners(k: Kind, s: StoreState): (r: Ran)
    ensures r.state == s.(invoked := r.state.invoked)
    ensures s.invoked <= r.state.invoked
    ensures r.result.Ok? ==> r.result.value == Undefined
    ensures r.result.Err? ==> r.state == s
    ensures !IsDirty(k, s.data, s.previous, true) ==> r == Ran(s, Ok(Undefined))
  {
    if !IsDirty(k, s.data, s.previous, true) then Ran(s, Ok(Undefined))
    else
      match ListenerView(k, s.previous, true)
      case Err(e) => Ran(s, Err(e))
      case Ok(p) =>
        match ListenerView(k, s.data, true)
        case Err(e) => Ran(s, Err(e))
        case Ok(c) => Ran(s.(invoked := s.invoked + Notify(s.listeners, ListenerParams(ChangeState(c, p)))), Ok(Undefined))
  }

  /** When the store is dirty and the views clone, each listener fires exactly once with the change state. */
  lemma ListenersFireOnce(k: Kind, s: StoreState)
    requires IsDirty(k, s.data, s.previous, true) && AllUser(s.listeners)
    requires ListenerView(k, s.data, true).Ok? && ListenerView(k, s.previous, true).Ok?
    ensures var r := ExecuteListeners(k, s);
            var change := ChangeState(ListenerView(k, s.data, true).value, ListenerView(k, s.previous, true).value);
            r.result == Ok(Undefined)
            && |r.state.invoked| == |s.invoked| + |s.listeners|
            && forall i :: 0 <= i < |s.listeners| ==>
                 r.state.invoked[|s.invoked| + i] == Call(s.listeners[i].callback.id, [change])
  {
    var change := ChangeState(ListenerView(k, s.data, true).value, ListenerView(k, s.previous, true).value);
    NotifyEach(s.listeners, [change]);
  }

  // ---------------------------------------------------------------------------
  // setData
  // ---------------------------------------------------------------------------

  /**
   * The src `getType` as written: the lookup `({})[toString.call(data)]`
   * finds nothing, so every object and every function is `'object'`.
   */
  function GetTypeAsWritten(d: Value): (r: Option<string>)
    ensures r != Some("function")
  {
    if d.Null? then None
    else if TypeOf(d) == "object" || TypeOf(d) == "function" then Some("object")
    else Some(TypeOf(d))
  }

  /** `getType` as its guard in `setData` needs it: functions are `'function'`. */
  function GetType(d: Value): (r: Option<string>)
    ensures r == Some("function") <==> d.Function?
  {
    if d.Null? then None
    else if TypeOf(d) == "object" then Some("object")
    else Some(TypeOf(d))
  }

  /** The guard at the head of `setData`; the observer refuses every write. */
  predicate Refuses(k: Kind, d: Value)
  {
    match k
    case LibStore => Truthy(d) && TypeOf(d) == "function"
    case SrcStore => GetType(d) == Some("function")
    case Observer => true
  }

  /** The guard with the src `getType` as written. */
  predicate RefusesAsWritten(k: Kind, d: Value)
  {
    match k
    case SrcStore => GetTypeAsWritten(d) == Some("function")
    case _ => Refuses(k, d)
  }

  /** Both stores refuse exactly the functions, once `getType` is corrected. */
  lemma RefusesFunctions(k: Kind, d: Value)
    requires !k.Observer?
    ensures Refuses(k, d) <==> d.Function?
  {
  }

  /** As written the src store accepts a function as its data. */
  lemma SrcAcceptsFunctionAsWritten()
    ensures !RefusesAsWritten(SrcStore, Function(0)) && Refuses(SrcStore, Function(0))
  {
  }

  /**
   * `setData`: refused values throw and change nothing; otherwise previous
   * becomes a snapshot of the old data, the data is replaced, the store time
   * is stamped and the listeners run.
   */
  function SetData(c: Config, s: StoreState, d: Value, now: int): (r: Ran)
    ensures c.kind.Observer? ==> r == Ran(s, Err(ObserverDataReadOnly))
    ensures !c.kind.Observer? && d.Function? ==> r == Ran(s, Err(FunctionStored))
    ensures !c.kind.Observer? && !d.Function? ==>
              r.state == s.(data := d, previous := Snapshot(s.data), lastStoreTime := Some(now), invoked := r.state.invoked)
    ensures s.invoked <= r.state.invoked
  {
    if c.kind.Observer? then Ran(s, Err(ObserverDataReadOnly))
    else
      RefusesFunctions(c.kind, d);
      if Refuses(c.kind, d) then Ran(s, Err(FunctionStored))
      else ExecuteListeners(c.kind, s.(previous := Snapshot(s.data), data := d, lastStoreTime := Some(now)))
  }

  /** Setting the value a store already holds fires no listener and leaves it clean. */
  lemma SetDataSameIsSilent(c: Config, s: StoreState, now: int)
    requires !c.kind.Observer? && !s.data.Function?
    ensures var r := SetData(c, s, s.data, now);
            r.result == Ok(Undefined) && r.state.invoked == s.invoked
            && forall shallow :: !IsDirty(c.kind, r.state.data, r.state.previous, shallow)
  {
    SnapshotIsClean(s.data);
  }

  /** Setting a new value that the dirty check sees fires every listener once with the two snapshots. */
  lemma SetDataNotifies(c: Config, s: StoreState, d: Value, now: int)
    requires !c.kind.Observer? && !d.Function? && AllUser(s.listeners)
    requires IsDirty(c.kind, d, Snapshot(s.data), true)
    requires ListenerView(c.kind, d, true).Ok? && ListenerView(c.kind, Snapshot(s.data), true).Ok?
    ensures var r := SetData(c, s, d, now);
            var change := ChangeState(ListenerView(c.kind, d, true).value, ListenerView(c.kind, Snapshot(s.data), true).value);
            r.result == Ok(Undefined) && r.state.data == d && r.state.lastStoreTime == Some(now)
            && |r.state.invoked| == |s.invoked| + |s.listeners|
            && forall i :: 0 <= i < |s.listeners| ==>
                 r.state.invoked[|s.invoked| + i] == Call(s.listeners[i].callback.id, [change])
  {
    ListenersFireOnce(c.kind, s.(previous := Snapshot(s.data), data := d, lastStoreTime := Some(now)));
  }

  // ---------------------------------------------------------------------------
  // isCacheStale
  // ---------------------------------------------------------------------------

  /**
   * `isCacheStale`: stale unless the store is cachable, cached and has
   * stored data; then never stale for a timeout of zero or less, and
   * otherwise stale once the timeout has passed since the last store.
   */
  predicate IsCacheStale(c: Config, s: StoreState, now: int)
  {
    if !c.isCachable || !s.isCached || s.lastStoreTime.None? then true
    else if c.cacheTimeoutSeconds <= 0 then false
    else s.lastStoreTime.value + c.cacheTimeoutSeconds * 1000 < now
  }

  /** Time only makes a cache staler: once stale, it stays stale. */
  lemma StaleStaysStale(c: Config, s: StoreState, now: int, later: int)
    requires now <= later && IsCacheStale(c, s, now)
    ensures IsCacheStale(c, s, later)
  {
  }

  // ---------------------------------------------------------------------------
  // execute
  // ---------------------------------------------------------------------------

  /** The handler `execute` finds: `BaseStore` searches actions only, `Store` uses `findEventHandler`. */
  function Handler(c: Config, s: StoreState, name: string): (r: Option<Action>)
    ensures r.Some? ==> r.value.name == name
  {
    if c.kind.Observer? then Find(s.actions, name)
    else FindEventHandler(s.actions, s.loaders, s.transformers, name)
  }

  /** Whether `execute(name)` starts a load: a store's loader, no load running and the cache stale. */
  predicate LoaderRuns(c: Config, s: StoreState, name: string, now: int)
  {
    !c.kind.Observer? && Handler(c, s, name).Some? && Handler(c, s, name).value.actionType == LOADER
    && !s.isLoading && IsCacheStale(c, s, now)
  }

  /** What a begun execution awaits: the action to run, its parameters, whether it set `isLoading`, and an early error. */
  datatype Pending = Pending(action: Action, params: seq<Value>, startedLoad: bool, early: Option<Error>)

  datatype Begun = Begun(state: StoreState, pending: Pending)

  /** The parameters `createExecutor` receives as written: only the lib `Store` spreads the arguments. */
  function ExecutorParamsAsWritten(k: Kind, args: seq<Value>): seq<Value>
  {
    if k.LibStore? then args else [Arr(args, false)]
  }

  /**
   * `execute` up to the awaited call: find the handler (or the no-op), put
   * the data in front of a transformer's arguments, replace a gated loader by
   * the no-op or set `isLoading`, and call the callback (or, for an inline
   * action, the data's method of that name) with the arguments spread.
   */
  function Begin(c: Config, s: StoreState, name: string, args: seq<Value>, now: int): (r: Begun)
    ensures r.state == s.(isLoading := r.state.isLoading, invoked := r.state.invoked)
    ensures r.pending.startedLoad <==> LoaderRuns(c, s, name, now)
    ensures r.state.isLoading == (s.isLoading || r.pending.startedLoad)
    ensures s.invoked <= r.state.invoked && |r.state.invoked| <= |s.invoked| + 1
  {
    var found := match Handler(c, s, name) case Some(a) => a case None => NoOpAction();
    var params := if !c.kind.Observer? && found.actionType == TRANSFORMER then [s.data] + args else args;
    var isLoader := !c.kind.Observer? && found.actionType == LOADER;
    var starts := isLoader && !s.isLoading && IsCacheStale(c, s, now);
    var a := if isLoader && !starts then NoOpAction() else found;
    var s1 := if starts then s.(isLoading := true) else s;
    if a.actionType == INLINE_ACTION then
      if GetProp(s.data, a.name).Function? then
        Begun(s1.(invoked := s1.invoked + [MethodCall(a.name, params)]), Pending(a, params, starts, None))
      else
        Begun(s1, Pending(a, params, starts, Some(TypeError("not a function: " + a.name))))
    else
      var e := CreateExecutor(a, params);
      Begun(s1.(invoked := s1.invoked + Calls(e)), Pending(a, e.params, starts, None))
  }

  /** The `finally` of `execute` as written: `isLoading` is cleared whoever set it. */
  function EndLoadAsWritten(k: Kind, s: StoreState): StoreState
  {
    if k.Observer? then s else s.(isLoading := false)
  }

  /** The `finally` as the loading flag needs it: cleared by the execution that set it. */
  function EndLoad(s: StoreState, p: Pending): StoreState
  {
    if p.startedLoad then s.(isLoading := false) else s
  }

  /**
   * What follows a successful call: a loader's result is stored (load time,
   * cache flag, `setData`, `acceptDirtyData`); after any other handler the
   * listeners run.
   */
  function Complete(c: Config, s: StoreState, a: Action, v: Value, now: int): (r: Ran)
    ensures r.state.isLoading == s.isLoading
    ensures r.state.actions == s.actions && r.state.loaders == s.loaders
    ensures r.state.transformers == s.transformers && r.state.listeners == s.listeners
    ensures s.invoked <= r.state.invoked
    ensures r.result.Ok? ==> r.result.value == v
  {
    if !c.kind.Observer? && a.actionType == LOADER then
      var s1 := s.(lastLoadTime := Some(now), isCached := s.isCached || c.isCachable);
      var d := SetData(c, s1, v, now);
      if d.result.Err? then d else Ran(Accept(d.state), Ok(v))
    else
      var l := ExecuteListeners(c.kind, s);
      if l.result.Err? then l else Ran(l.state, Ok(v))
  }

  /** The call's own result: a rejected inline method is rethrown as it is, a callback's error wrapped. */
  function CallResult(p: Pending, outcome: Outcome): Result<Value, Error>
  {
    match p.early
    case Some(e) => Err(e)
    case None =>
      if p.action.actionType == INLINE_ACTION then
        (match outcome case Returns(v) => Ok(v) case Throws(m) => Err(Thrown(m)))
      else Run(CreateExecutor(p.action, p.params), outcome)
  }

  /** `execute` after the awaited call, with the corrected `finally` (`resetOwn`) or the one as written. */
  function FinishWith(c: Config, s: StoreState, p: Pending, outcome: Outcome, now: int, resetOwn: bool): (r: Ran)
    ensures r.state.actions == s.actions && r.state.loaders == s.loaders
    ensures r.state.transformers == s.transformers && r.state.listeners == s.listeners
    ensures s.invoked <= r.state.invoked
  {
    var res := CallResult(p, outcome);
    var after := if res.Err? then Ran(s, res) else Complete(c, s, p.action, res.value, now);
    Ran(if resetOwn then EndLoad(after.state, p) else EndLoadAsWritten(c.kind, after.state), after.result)
  }

  function Finish(c: Config, s: StoreState, p: Pending, outcome: Outcome, now: int): (r: Ran)
    ensures r.state.isLoading == (s.isLoading && !p.startedLoad)
    ensures r.state.actions == s.actions && r.state.loaders == s.loaders
    ensures r.state.transformers == s.transformers && r.state.listeners == s.listeners
    ensures s.invoked <= r.state.invoked
  {
    FinishWith(c, s, p, outcome, now, true)
  }

  function FinishAsWritten(c: Config, s: StoreState, p: Pending, outcome: Outcome, now: int): (r: Ran)
    ensures !c.kind.Observer? ==> !r.state.isLoading
  {
    FinishWith(c, s, p, outcome, now, false)
  }

  /** A whole `execute` that nothing overlaps. */
  function Execute(c: Config, s: StoreState, name: string, args: seq<Value>, outcome: Outcome, now: int): (r: Ran)
    ensures !s.isLoading ==> !r.state.isLoading
    ensures r.state.actions == s.actions && r.state.loaders == s.loaders
    ensures r.state.transformers == s.transformers && r.state.listeners == s.listeners
    ensures s.invoked <= r.state.invoked
  {
    var b := Begin(c, s, name, args, now);
    Finish(c, b.state, b.pending, outcome, now)
  }

  /** An unknown name runs the no-op: it returns undefined and only the listeners run. */
  lemma UnknownIsNoOp(c: Config, s: StoreState, name: string, args: seq<Value>, outcome: Outcome, now: int)
    requires Handler(c, s, name).None?
    ensures var r := Execute(c, s, name, args, outcome, now);
            var l := ExecuteListeners(c.kind, s);
            r.state == l.state && r.result == (if l.result.Err? then l.result else Ok(Undefined))
  {
    var b := Begin(c, s, name, args, now);
    assert b.state == s && b.pending == Pending(NoOpAction(), args, false, None) by {
      assert s.invoked + [] == s.invoked;
    }
    assert CallResult(b.pending, outcome) == Ok(Undefined);
  }

  /** A transformer's callback gets the current data in front of the arguments; the data stays as it was. */
  lemma TransformerGetsData(c: Config, s: StoreState, name: string, args: seq<Value>, v: Value, now: int)
    requires !c.kind.Observer? && Handler(c, s, name).Some?
    requires Handler(c, s, name).value.actionType == TRANSFORMER && Handler(c, s, name).value.callback.User?
    ensures Begin(c, s, name, args, now).state.invoked
            == s.invoked + [Call(Handler(c, s, name).value.callback.id, [s.data] + args)]
    ensures var r := Execute(c, s, name, args, Returns(v), now);
            r.state.data == s.data && (r.result.Ok? ==> r.result.value == v)
  {
  }

  /** A loader while loading, or while the cache is fresh, is replaced by the no-op: no callback runs. */
  lemma LoaderGated(c: Config, s: StoreState, name: string, args: seq<Value>, now: int)
    requires !c.kind.Observer? && Handler(c, s, name).Some? && Handler(c, s, name).value.actionType == LOADER
    requires s.isLoading || !IsCacheStale(c, s, now)
    ensures var b := Begin(c, s, name, args, now);
            b.state == s && b.pending.action == NoOpAction() && !b.pending.startedLoad
  {
  }

  /** Values that are JSON-safe are plain. */
  lemma {:induction false} JsonSafeIsPlain(v: Value)
    requires JsonSafe(v)
    ensures Plain(v)
    decreases v
  {
    match v
    case Arr(items, _) =>
      forall i | 0 <= i < |items| ensures Plain(items[i]) { JsonSafeIsPlain(items[i]); }
    case Obj(ps) =>
      forall i | 0 <= i < |ps| ensures Plain(ps[i].value) { JsonSafeIsPlain(ps[i].value); }
    case MapV(es) =>
      forall i | 0 <= i < |es| ensures Plain(es[i].key) && Plain(es[i].value) {
        assert EntrySafe(es[i]);
        JsonSafeIsPlain(es[i].key);
        JsonSafeIsPlain(es[i].value);
      }
    case _ =>
  }

  /**
   * A loader that runs and returns storable data: the result is returned
   * and stored, load and store time are stamped, the cache flag is set on a
   * cachable store, loading has ended and the store is clean.
   */
  lemma LoaderCompletes(c: Config, s: StoreState, name: string, args: seq<Value>, v: Value, now: int)
    requires LoaderRuns(c, s, name, now) && Handler(c, s, name).value.callback.User?
    requires !Truthy(v) || JsonSafe(v)
    requires !Truthy(s.data) || JsonSafe(s.data)
    ensures var r := Execute(c, s, name, args, Returns(v), now);
            r.result == Ok(v) && r.state.data == v
            && r.state.lastLoadTime == Some(now) && r.state.lastStoreTime == Some(now)
            && r.state.isCached == (s.isCached || c.isCachable) && !r.state.isLoading
            && forall shallow :: !IsDirty(c.kind, r.state.data, r.state.previous, shallow)
  {
    var a := Handler(c, s, name).value;
    var b := Begin(c, s, name, args, now);
    assert b.pending.action == a && b.pending.startedLoad && b.pending.early.None?;
    assert CallResult(b.pending, Returns(v)) == Ok(v);
    assert b.state.data == s.data;
    LoaderStores(c, b.state, a, v, now);
  }

  /** The completion of a loader that returned storable data over storable data. */
  lemma LoaderStores(c: Config, s: StoreState, a: Action, v: Value, now: int)
    requires !c.kind.Observer? && a.actionType == LOADER
    requires !Truthy(v) || JsonSafe(v)
    requires !Truthy(s.data) || JsonSafe(s.data)
    ensures var r := Complete(c, s, a, v, now);
            r.result == Ok(v) && r.state.data == v
            && r.state.lastLoadTime == Some(now) && r.state.lastStoreTime == Some(now)
            && r.state.isCached == (s.isCached || c.isCachable)
            && forall shallow :: !IsDirty(c.kind, r.state.data, r.state.previous, shallow)
  {
    var s1 := s.(lastLoadTime := Some(now), isCached := s.isCached || c.isCachable);
    if Truthy(s.data) {
      JsonSafeIsPlain(s.data);
      DeepCloneOfPlain(s.data);
    }
    ViewOfSafe(c.kind, v, true);
    ViewOfSafe(c.kind, Snapshot(s.data), true);
    assert !v.Function?;
    var d := SetData(c, s1, v, now);
    assert d.result.Ok? && d.state.data == v && d.state.lastStoreTime == Some(now);
  }

  /**
   * After a successful load on a cachable store, the same loader runs again
   * only once the timeout has passed, and never for a timeout of zero or
   * less; on a store that is not cachable it always runs again.
   */
  lemma ReloadPolicy(c: Config, s: StoreState, name: string, args: seq<Value>, v: Value, now: int, later: int)
    requires LoaderRuns(c, s, name, now) && Handler(c, s, name).value.callback.User?
    requires !Truthy(v) || JsonSafe(v)
    requires !Truthy(s.data) || JsonSafe(s.data)
    ensures var r := Execute(c, s, name, args, Returns(v), now);
            LoaderRuns(c, r.state, name, later)
            <==> (!c.isCachable || (c.cacheTimeoutSeconds > 0 && now + c.cacheTimeoutSeconds * 1000 < later))
  {
    LoaderCompletes(c, s, name, args, v, now);
  }

  /** A callback that throws rejects the execution with the wrapped error; no listener runs after it. */
  lemma ThrowingCallback(c: Config, s: StoreState, name: string, args: seq<Value>, m: string, now: int)
    requires Handler(c, s, name).Some? && Handler(c, s, name).value.callback.User?
    requires Handler(c, s, name).value.actionType != INLINE_ACTION
    requires !LoaderRuns(c, s, name, now) ==> Handler(c, s, name).value.actionType != LOADER
    ensures var b := Begin(c, s, name, args, now);
            var r := Execute(c, s, name, args, Throws(m), now);
            r.result == Err(CallbackFailed(m)) && r.state == b.state.(isLoading := s.isLoading)
  {
  }

  // ---------------------------------------------------------------------------
  // Overlapping executions and the loading flag
  // ---------------------------------------------------------------------------

  /** `isLoading` is set exactly while a load is in flight, and at most one is. */
  predicate LoadInv(s: StoreState, inFlight: nat)
  {
    inFlight <= 1 && (s.isLoading <==> inFlight == 1)
  }

  /** Beginning an execution keeps the invariant, counting the load it starts. */
  lemma BeginKeepsLoadInv(c: Config, s: StoreState, name: string, args: seq<Value>, now: int, n: nat)
    requires LoadInv(s, n)
    ensures var b := Begin(c, s, name, args, now);
            LoadInv(b.state, n + if b.pending.startedLoad then 1 else 0)
  {
  }

  /** Finishing an execution keeps the invariant, uncounting the load it had started. */
  lemma FinishKeepsLoadInv(c: Config, s: StoreState, p: Pending, outcome: Outcome, now: int, n: nat)
    requires LoadInv(s, n) && (p.startedLoad ==> n == 1)
    ensures LoadInv(Finish(c, s, p, outcome, now).state, n - if p.startedLoad then 1 else 0)
  {
  }

  /**
   * As written, a loader call that was gated while a load is in flight clears
   * `isLoading` when it finishes, so a third call starts a second load while
   * the first is still in flight. With the corrected `finally` it is gated.
   */
  lemma OverlappingLoadsAsWritten()
    ensures var c := Config(LibStore, false, -1);
            var loader := Action("load", User(1), LOADER);
            var s := Initial().(loaders := [loader]);
            var b1 := Begin(c, s, "load", [], 0);
            var b2 := Begin(c, b1.state, "load", [], 0);
            var f2 := FinishAsWritten(c, b2.state, b2.pending, Returns(Undefined), 0);
            var g2 := Finish(c, b2.state, b2.pending, Returns(Undefined), 0);
            b1.pending.startedLoad && !b2.pending.startedLoad
            && Begin(c, f2.state, "load", [], 0).pending.startedLoad
            && !Begin(c, g2.state, "load", [], 0).pending.startedLoad
  {
    var c := Config(LibStore, false, -1);
    var loader := Action("load", User(1), LOADER);
    var s := Initial().(loaders := [loader]);
    assert Handler(c, s, "load") == Some(loader);
    var b1 := Begin(c, s, "load", [], 0);
    assert Handler(c, b1.state, "load") == Some(loader);
    var b2 := Begin(c, b1.state, "load", [], 0);
    var f2 := FinishAsWritten(c, b2.state, b2.pending, Returns(Undefined), 0);
    assert Handler(c, f2.state, "load") == Some(loader);
    var g2 := Finish(c, b2.state, b2.pending, Returns(Undefined), 0);
    assert Handler(c, g2.state, "load") == Some(loader);
  }

  /** As written, `BaseStore` and the src store hand a callback its arguments packed in one array. */
  lemma ArgumentsPackedAsWritten(data: Value, x: Value)
    ensures ExecutorParamsAsWritten(SrcStore, [data, x]) == [Arr([data, x], false)]
    ensures var c := Config(SrcStore, false, -1);
            var t := Action("t", User(1), TRANSFORMER);
            var s := Initial().(data := data, transformers := [t]);
            Begin(c, s, "t", [x], 0).state.invoked == [Call(1, [data, x])]
  {
    var c := Config(SrcStore, false, -1);
    var t := Action("t", User(1), TRANSFORMER);
    var s := Initial().(data := data, transformers := [t]);
    assert Handler(c, s, "t") == Some(t);
    assert [data] + [x] == [data, x];
  }

  // ---------------------------------------------------------------------------
  // chain
  // ---------------------------------------------------------------------------

  /** One step of a chain: the handler name, its optional parameters and whether its result is forwarded. */
  datatype ExecutableOptions = ExecutableOptions(action: string, params: Option<seq<Value>>, forwardResult: bool)

  /** `executableDef.params || []`. */
  function ParamsOf(d: ExecutableOptions): seq<Value>
  {
    match d.params case Some(ps) => ps case None => []
  }

  /** The step as the loop rewrites it: the forwarded result put in front of its parameters. */
  function Forwarded(d: ExecutableOptions, forward: bool, last: Value): (r: ExecutableOptions)
    ensures r.action == d.action && r.forwardResult == d.forwardResult
    ensures !forward ==> r == d
    ensures forward ==> ParamsOf(r) == [last] + ParamsOf(d)
  {
    if forward then d.(params := Some([last] + ParamsOf(d))) else d
  }

  /** The state after a chain, the step definitions as it left them, and its results or its error. */
  datatype Chained = Chained(state: StoreState, defs: seq<ExecutableOptions>, result: Result<seq<Value>, Error>)

  /**
   * The loop of `chain` from some step on, with one outcome per step: each
   * step is executed in order, its result collected, and a step with
   * `forwardResult` has its result put in front of the next step's
   * parameters. The first rejection rejects the chain.
   */
  function ChainFrom(c: Config, s: StoreState, defs: seq<ExecutableOptions>, outcomes: seq<Outcome>, now: int,
                     forward: bool, last: Value): (r: Chained)
    requires |outcomes| == |defs|
    ensures |r.defs| == |defs|
    ensures r.result.Ok? ==> |r.result.value| == |defs|
    decreases |defs|
  {
    if defs == [] then Chained(s, [], Ok([]))
    else
      var d := Forwarded(defs[0], forward, last);
      var x := Execute(c, s, d.action, ParamsOf(d), outcomes[0], now);
      match x.result
      case Err(e) => Chained(x.state, [d] + defs[1..], Err(e))
      case Ok(v) =>
        var rest := ChainFrom(c, x.state, defs[1..], outcomes[1..], now, d.forwardResult, v);
        Chained(rest.state, [d] + rest.defs, match rest.result case Ok(vs) => Ok([v] + vs) case Err(e) => Err(e))
  }

  /** `chain(actions)`. */
  function Chain(c: Config, s: StoreState, defs: seq<ExecutableOptions>, outcomes: seq<Outcome>, now: int): Chained
    requires |outcomes| == |defs|
  {
    ChainFrom(c, s, defs, outcomes, now, false, Null)
  }

  /**
   * A chain's results are index-aligned with its steps, and step `i + 1`
   * received step `i`'s result in front of its parameters exactly when step
   * `i` has `forwardResult`; the first step's definition is not changed.
   */
  lemma {:induction false} ChainFromForwards(c: Config, s: StoreState, defs: seq<ExecutableOptions>,
                                             outcomes: seq<Outcome>, now: int, forward: bool, last: Value)
    requires |outcomes| == |defs|
    ensures var r := ChainFrom(c, s, defs, outcomes, now, forward, last);
            defs != [] ==> r.defs[0] == Forwarded(defs[0], forward, last)
    ensures var r := ChainFrom(c, s, defs, outcomes, now, forward, last);
            r.result.Ok? ==>
              forall i :: 0 < i < |defs| ==>
                r.defs[i] == Forwarded(defs[i], defs[i - 1].forwardResult, r.result.value[i - 1])
    decreases |defs|
  {
    if defs != [] {
      var d := Forwarded(defs[0], forward, last);
      var x := Execute(c, s, d.action, ParamsOf(d), outcomes[0], now);
      if x.result.Ok? {
        var v := x.result.value;
        ChainFromForwards(c, x.state, defs[1..], outcomes[1..], now, d.forwardResult, v);
        var rest := ChainFrom(c, x.state, defs[1..], outcomes[1..], now, d.forwardResult, v);
        var r := ChainFrom(c, s, defs, outcomes, now, forward, last);
        if r.result.Ok? {
          assert r.defs == [d] + rest.defs && r.result.value == [v] + rest.result.value;
          if |defs| > 1 {
            assert defs[1..][0] == defs[1];
          }
          ForwardedCons(defs, d, v, rest.defs, rest.result.value);
        }
      }
    }
  }

  /** The forwarding property of a chain's rest, extended by the first step. */
  lemma ForwardedCons(defs: seq<ExecutableOptions>, d: ExecutableOptions, v: Value,
                      out: seq<ExecutableOptions>, vs: seq<Value>)
    requires defs != [] && d.forwardResult == defs[0].forwardResult
    requires |out| == |defs| - 1 && |vs| == |defs| - 1
    requires |defs| > 1 ==> out[0] == Forwarded(defs[1], d.forwardResult, v)
    requires forall i :: 0 < i < |out| ==> out[i] == Forwarded(defs[1..][i], defs[1..][i - 1].forwardResult, vs[i - 1])
    ensures forall i :: 0 < i < |defs| ==> ([d] + out)[i] == Forwarded(defs[i], defs[i - 1].forwardResult, ([v] + vs)[i - 1])
  {
    forall i | 0 < i < |defs|
      ensures ([d] + out)[i] == Forwarded(defs[i], defs[i - 1].forwardResult, ([v] + vs)[i - 1])
    {
      if i > 1 {
        assert defs[1..][i - 1] == defs[i] && defs[1..][i - 2] == defs[i - 1];
      }
    }
  }

  /** The outcome of a whole chain: the results so far put in front of the rest's. */
  function Combine(results: seq<Value>, done: seq<ExecutableOptions>, rest: Chained): Chained
  {
    Chained(rest.state, done + rest.defs, match rest.result case Ok(vs) => Ok(results + vs) case Err(e) => Err(e))
  }

  /** Nothing collected yet: the whole chain is what is left of it. */
  lemma CombineNothing(rest: Chained)
    ensures Combine([], [], rest) == rest
  {
    assert [] + rest.defs == rest.defs;
    if rest.result.Ok? {
      assert [] + rest.result.value == rest.result.value;
    }
  }

  /** No step left: the chain ends in the state reached, with what was collected. */
  lemma ChainEnds(c: Config, s: StoreState, defs: seq<ExecutableOptions>, outcomes: seq<Outcome>, now: int,
                  forward: bool, last: Value, results: seq<Value>, done: seq<ExecutableOptions>)
    requires |outcomes| == |defs| && defs == []
    ensures Combine(results, done, ChainFrom(c, s, defs, outcomes, now, forward, last)) == Chained(s, done, Ok(results))
  {
    assert done + [] == done && results + [] == results;
  }

  /** Results and step definitions put in front of a chain's. */
  lemma CombineAssoc(a: seq<Value>, b: seq<Value>, da: seq<ExecutableOptions>, db: seq<ExecutableOptions>, rest: Chained)
    ensures Combine(a, da, Combine(b, db, rest)) == Combine(a + b, da + db, rest)
  {
    assert da + (db + rest.defs) == (da + db) + rest.defs;
    if rest.result.Ok? {
      assert a + (b + rest.result.value) == (a + b) + rest.result.value;
    }
  }

  /** The first step of a chain unfolded: the rest runs in the state the step left behind. */
  lemma ChainFromStep(c: Config, s: StoreState, defs: seq<ExecutableOptions>, outcomes: seq<Outcome>, now: int,
                      forward: bool, last: Value)
    requires |outcomes| == |defs| && defs != []
    ensures var d := Forwarded(defs[0], forward, last);
            var x := Execute(c, s, d.action, ParamsOf(d), outcomes[0], now);
            ChainFrom(c, s, defs, outcomes, now, forward, last)
            == if x.result.Err? then Chained(x.state, [d] + defs[1..], Err(x.result.error))
               else Combine([x.result.value], [d], ChainFrom(c, x.state, defs[1..], outcomes[1..], now, d.forwardResult, x.result.value))
  {
  }

  /** The loop of `chain` resumed at a step, with the results and definitions collected so far. */
  lemma ChainResume(c: Config, s: StoreState, defs: seq<ExecutableOptions>, outcomes: seq<Outcome>, now: int,
                    forward: bool, last: Value, results: seq<Value>, done: seq<ExecutableOptions>)
    requires |outcomes| == |defs| && defs != []
    ensures var d := Forwarded(defs[0], forward, last);
            var x := Execute(c, s, d.action, ParamsOf(d), outcomes[0], now);
            var whole := Combine(results, done, ChainFrom(c, s, defs, outcomes, now, forward, last));
            (x.result.Err? ==> whole == Chained(x.state, done + [d] + defs[1..], Err(x.result.error)))
            && (x.result.Ok? ==>
                  whole == Combine(results + [x.result.value], done + [d],
                                   ChainFrom(c, x.state, defs[1..], outcomes[1..], now, d.forwardResult, x.result.value)))
  {
    var d := Forwarded(defs[0], forward, last);
    var x := Execute(c, s, d.action, ParamsOf(d), outcomes[0], now);
    ChainFromStep(c, s, defs, outcomes, now, forward, last);
    if x.result.Err? {
      assert done + ([d] + defs[1..]) == done + [d] + defs[1..];
    } else {
      CombineAssoc(results, [x.result.value], done, [d],
                   ChainFrom(c, x.state, defs[1..], outcomes[1..], now, d.forwardResult, x.result.value));
    }
  }

  // ---------------------------------------------------------------------------
  // Decorators and observable stores
  // ---------------------------------------------------------------------------

  /** A decorated member of the target: its key, the handler type and the callback. */
  datatype Decorator = Decorator(key: string, actionType: ActionType, callback: Callback)

  /**
   * The `switch` over one decorator: actions (inline or not), listeners and,
   * for a store, loaders and transformers are created under the decorator's key;
   * the observer has no case for loaders and transformers.
   */
  function Register(k: Kind, s: StoreState, d: Decorator): (r: StoreState)
    ensures r == s.(actions := r.actions, listeners := r.listeners, loaders := r.loaders, transformers := r.transformers)
  {
    var a := Action(d.key, d.callback, d.actionType);
    match d.actionType
    case ACTION => s.(actions := Upsert(s.actions, a))
    case INLINE_ACTION => s.(actions := Upsert(s.actions, a))
    case LISTENER => s.(listeners := Upsert(s.listeners, a))
    case LOADER => if k.Observer? then s else s.(loaders := Upsert(s.loaders, a))
    case TRANSFORMER => if k.Observer? then s else s.(transformers := Upsert(s.transformers, a))
  }

  /** The decorators registered in order. */
  function Decorate(k: Kind, s: StoreState, decs: seq<Decorator>): (r: StoreState)
    ensures r == s.(actions := r.actions, listeners := r.listeners, loaders := r.loaders, transformers := r.transformers)
  {
    if decs == [] then s else Register(k, Decorate(k, s, decs[..|decs| - 1]), decs[|decs| - 1])
  }

  /** No two handlers of one registry share a name. */
  predicate UniqueHandlers(s: StoreState)
  {
    UniqueNames(s.actions) && UniqueNames(s.listeners) && UniqueNames(s.loaders) && UniqueNames(s.transformers)
  }

  /** Registering a decorator keeps every registry free of duplicate names, and its handler is then the last one there. */
  lemma RegisterSpec(k: Kind, s: StoreState, d: Decorator)
    requires UniqueHandlers(s)
    ensures UniqueHandlers(Register(k, s, d))
    ensures var r := Register(k, s, d);
            var a := Action(d.key, d.callback, d.actionType);
            match d.actionType
            case LISTENER => Find(r.listeners, d.key) == Some(a)
            case LOADER => k.Observer? || Find(r.loaders, d.key) == Some(a)
            case TRANSFORMER => k.Observer? || Find(r.transformers, d.key) == Some(a)
            case _ => Find(r.actions, d.key) == Some(a)
  {
    var a := Action(d.key, d.callback, d.actionType);
    UpsertSpec(s.actions, a);
    UpsertSpec(s.listeners, a);
    UpsertSpec(s.loaders, a);
    UpsertSpec(s.transformers, a);
    UpsertFinds(s.actions, a);
    UpsertFinds(s.listeners, a);
    UpsertFinds(s.loaders, a);
    UpsertFinds(s.transformers, a);
  }

  /** Registering decorators keeps every registry free of duplicate names. */
  lemma {:induction false} DecorateUnique(k: Kind, s: StoreState, decs: seq<Decorator>)
    requires UniqueHandlers(s)
    ensures UniqueHandlers(Decorate(k, s, decs))
  {
    if decs != [] {
      DecorateUnique(k, s, decs[..|decs| - 1]);
      RegisterSpec(k, Decorate(k, s, decs[..|decs| - 1]), decs[|decs| - 1]);
    }
  }

  /**
   * The lib observer built by `observableStore`: the decorators registered,
   * the injected target (with patched arrays) as its data, and a deep copy of
   * it as the previous state, so that it starts clean.
   */
  function ObserveLib(s: StoreState, target: Value, decs: seq<Decorator>): (r: StoreState)
    ensures Erase(r.data) == Erase(target)
    ensures forall shallow :: !IsDirty(Observer, r.data, r.previous, shallow)
    ensures r.invoked == s.invoked && r.isLoading == s.isLoading
  {
    var d := InjectTarget(target, true);
    InjectKeepsData(target, true);
    SnapshotIsClean(d);
    Decorate(Observer, s, decs).(data := d, previous := Snapshot(d))
  }

  /**
   * The src `observableStore` after the store was created: the decorators
   * registered, setters injected on the target (arrays are not patched), and
   * the target stored with `setData`.
   */
  function ObserveSrc(c: Config, s: StoreState, target: Value, decs: seq<Decorator>, now: int): (r: Ran)
    requires c.kind.SrcStore?
    ensures !target.Function? ==> Erase(r.state.data) == Erase(target) && r.state.lastStoreTime == Some(now)
  {
    InjectKeepsData(target, false);
    SetData(c, Decorate(c.kind, s, decs), InjectTarget(target, false), now)
  }

  // ---------------------------------------------------------------------------
  // The injected setter
  // ---------------------------------------------------------------------------

  /** The path leads to an object, whose property is being assigned. */
  predicate AtObject(d: Value, path: seq<Step>)
  {
    At(d, path).Some? && At(d, path).value.Obj?
  }

  /** The data with `key` of the object at `path` set to `x`. */
  function Written(d: Value, path: seq<Step>, key: string, x: Value): (r: Value)
    requires AtObject(d, path)
    ensures At(r, path + [Key(key)]) == Some(x)
  {
    var ps := At(d, path).value.props;
    var w := Obj(SetKey(ps, key, x));
    UpdateThenAt(d, path, w);
    AtAppend(Update(d, path, w), path, [Key(key)]);
    Update(d, path, w)
  }

  /**
   * The previous state the setter records: as written a copy of the object
   * that owns the property, corrected a copy of the whole data.
   */
  function SetterPrevious(d: Value, path: seq<Step>, wholeData: bool): Value
    requires AtObject(d, path)
  {
    if wholeData then Snapshot(d) else DeepClone(At(d, path).value)
  }

  /**
   * `obj[key] = x` on the object at `path`. A watched property goes through
   * the setter: nothing for the value it holds; otherwise previous is
   * recorded, the value written, the listeners run and the data accepted. An
   * unwatched property is written without any of this.
   */
  function AssignWith(c: Config, s: StoreState, path: seq<Step>, key: string, x: Value, wholeData: bool): (r: Ran)
    requires AtObject(s.data, path)
  {
    var ps := At(s.data, path).value.props;
    if !Watched(ps, key) then Ran(s.(data := Written(s.data, path, key, x)), Ok(Undefined))
    else if ps[PropIndex(ps, key).value].value == x then Ran(s, Ok(Undefined))
    else
      var l := ExecuteListeners(c.kind, s.(previous := SetterPrevious(s.data, path, wholeData),
                                           data := Written(s.data, path, key, x)));
      if l.result.Err? then l else Ran(Accept(l.state), Ok(Undefined))
  }

  function Assign(c: Config, s: StoreState, path: seq<Step>, key: string, x: Value): (r: Ran)
    requires AtObject(s.data, path)
    ensures var ps := At(s.data, path).value.props;
            Watched(ps, key) && ps[PropIndex(ps, key).value].value == x ==> r == Ran(s, Ok(Undefined))
    ensures !Watched(At(s.data, path).value.props, key) ==> r.state == s.(data := r.state.data)
    ensures r.result.Ok? ==> At(r.state.data, path + [Key(key)]) == Some(x)
    ensures r.state.actions == s.actions && r.state.listeners == s.listeners && r.state.isLoading == s.isLoading
  {
    var ps := At(s.data, path).value.props;
    AtAppend(s.data, path, [Key(key)]);
    AssignWith(c, s, path, key, x, true)
  }

  /** The three paths of the corrected setter. */
  lemma AssignPaths(c: Config, s: StoreState, path: seq<Step>, key: string, x: Value)
    requires AtObject(s.data, path)
    ensures var ps := At(s.data, path).value.props;
            var r := Assign(c, s, path, key, x);
            (!Watched(ps, key) ==> r == Ran(s.(data := Written(s.data, path, key, x)), Ok(Undefined)))
            && (Watched(ps, key) && ps[PropIndex(ps, key).value].value == x ==> r == Ran(s, Ok(Undefined)))
            && (Watched(ps, key) && ps[PropIndex(ps, key).value].value != x ==>
                  var l := ExecuteListeners(c.kind, s.(previous := SetterPrevious(s.data, path, true),
                                                       data := Written(s.data, path, key, x)));
                  r == if l.result.Err? then l else Ran(Accept(l.state), Ok(Undefined)))
  {
  }

  function AssignAsWritten(c: Config, s: StoreState, path: seq<Step>, key: string, x: Value): Ran
    requires AtObject(s.data, path)
  {
    AssignWith(c, s, path, key, x, false)
  }

  /** A change through a watched property leaves the store clean. */
  lemma AssignEndsClean(c: Config, s: StoreState, path: seq<Step>, key: string, x: Value)
    requires AtObject(s.data, path)
    requires var ps := At(s.data, path).value.props;
             Watched(ps, key) && ps[PropIndex(ps, key).value].value != x
    requires Assign(c, s, path, key, x).result.Ok?
    ensures var r := Assign(c, s, path, key, x);
            forall shallow :: !IsDirty(c.kind, r.state.data, r.state.previous, shallow)
  {
    SnapshotIsClean(s.data);
  }

  /** A change through a watched property that the dirty check sees fires every listener once. */
  lemma AssignNotifies(c: Config, s: StoreState, path: seq<Step>, key: string, x: Value)
    requires AtObject(s.data, path)
    requires var ps := At(s.data, path).value.props;
             Watched(ps, key) && ps[PropIndex(ps, key).value].value != x
    requires AllUser(s.listeners)
    requires var w := Written(s.data, path, key, x);
             IsDirty(c.kind, w, Snapshot(s.data), true)
             && ListenerView(c.kind, w, true).Ok? && ListenerView(c.kind, Snapshot(s.data), true).Ok?
    ensures var r := Assign(c, s, path, key, x);
            var w := Written(s.data, path, key, x);
            var change := ChangeState(ListenerView(c.kind, w, true).value, ListenerView(c.kind, Snapshot(s.data), true).value);
            r.result == Ok(Undefined) && |r.state.invoked| == |s.invoked| + |s.listeners|
            && forall i :: 0 <= i < |s.listeners| ==>
                 r.state.invoked[|s.invoked| + i] == Call(s.listeners[i].callback.id, [change])
  {
    ListenersFireOnce(c.kind, s.(previous := Snapshot(s.data), data := Written(s.data, path, key, x)));
  }

  /**
   * As written, a change to a nested property records the nested object as
   * the previous state: `{a: {b: 1}}` with `a.b = 2` reports a previous
   * state without the key `a`.
   */
  lemma SetterPreviousAsWritten()
    ensures var inner := Obj([Prop("b", Num(1), true)]);
            var d := Obj([Prop("a", inner, false)]);
            AtObject(d, [Key("a")])
            && GetProp(SetterPrevious(d, [Key("a")], false), "a") == Undefined
            && GetProp(SetterPrevious(d, [Key("a")], true), "a") == DeepClone(inner)
  {
    var inner := Obj([Prop("b", Num(1), true)]);
    var d := Obj([Prop("a", inner, false)]);
    assert PropIndex([Prop("a", inner, false)], "a") == Some(0);
    assert At(d, [Key("a")]) == Some(inner);
    var owner := DeepClone(inner);
    assert owner == Obj([Prop("b", Num(1), false), Prop(ShadowKey("b"), Num(1), false)]);
    assert PropIndex(owner.props, "a") == None;
    var whole := Snapshot(d);
    assert CloneShadows(d.props) == [] by { assert CloneShadows(d.props[1..]) == []; }
    assert CloneFields(d.props) == [Prop("a", owner, false)];
    assert whole == Obj([Prop("a", owner, false)]);
    GetPropFirst(whole.props, "a");
    assert Lookup(OwnMembers(owner.props), "a") == None;
  }

  // ---------------------------------------------------------------------------
  // The patched array methods
  // ---------------------------------------------------------------------------

  predicate AtArray(d: Value, path: seq<Step>)
  {
    At(d, path).Some? && At(d, path).value.Arr?
  }

  /**
   * A mutator called on the array at `path`. On a patched array the native
   * method runs, the arguments of `push` and `unshift` are injected, and the
   * listeners run when the length changed; the data is never accepted. An
   * array that was not patched runs the native method only.
   */
  function Mutate(c: Config, s: StoreState, path: seq<Step>, call: ArrayCall): (r: Ran)
    requires AtArray(s.data, path)
    ensures r.state.previous == s.previous && r.state.listeners == s.listeners
    ensures r.result.Ok? ==> r.result.value == Native(At(s.data, path).value.items, call).result
    ensures var a := At(s.data, path).value;
            |r.state.invoked| > |s.invoked| ==> a.wrapped && |Native(a.items, call).items| != |a.items|
  {
    var a := At(s.data, path).value;
    if a.wrapped then
      var m := Patched(a.items, call);
      var s1 := s.(data := Update(s.data, path, Arr(m.items, true)));
      if |m.items| == |a.items| then Ran(s1, Ok(m.result))
      else
        var l := ExecuteListeners(c.kind, s1);
        if l.result.Err? then l else Ran(l.state, Ok(m.result))
    else
      var m := Native(a.items, call);
      Ran(s.(data := Update(s.data, path, Arr(m.items, false))), Ok(m.result))
  }

  /** A patched method stores the same data as the native one; it only adds observer machinery. */
  lemma PatchedKeepsData(items: seq<Value>, call: ArrayCall, w: bool)
    ensures Erase(Arr(Patched(items, call).items, w)) == Erase(Arr(Native(items, call).items, w))
  {
    var m := Native(items, call);
    if |m.items| != |items| {
      match call
      case Push(args) =>
        InjectSlotsKeepData(args, true);
        EraseItemsAppend(items, InjectSlots(args, true));
        EraseItemsAppend(items, args);
      case Unshift(args) =>
        InjectSlotsKeepData(args, true);
        EraseItemsAppend(InjectSlots(args, true), items);
        EraseItemsAppend(args, items);
      case _ =>
    }
  }

  lemma EraseItemsAppend(a: seq<Value>, b: seq<Value>)
    ensures EraseItems(a + b) == EraseItems(a) + EraseItems(b)
  {
    var l := EraseItems(a + b);
    var r := EraseItems(a) + EraseItems(b);
    forall i | 0 <= i < |l| ensures l[i] == r[i] {
      if i < |a| {
        assert (a + b)[i] == a[i] && r[i] == EraseItems(a)[i];
      } else {
        assert (a + b)[i] == b[i - |a|] && r[i] == EraseItems(b)[i - |a|];
      }
    }
  }

  /** `concat` never changes the array's length, so it changes nothing and fires no listener. */
  lemma ConcatIsSilent(c: Config, s: StoreState, path: seq<Step>, args: seq<Value>)
    requires AtArray(s.data, path)
    ensures var a := At(s.data, path).value;
            Mutate(c, s, path, Concat(args)) == Ran(s, Ok(Arr(a.items + Spread(args), false)))
  {
    UpdateWithSame(s.data, path);
  }

  /** On a patched array, a call that changes the length fires every listener once when the dirty check sees it. */
  lemma MutateNotifies(c: Config, s: StoreState, path: seq<Step>, call: ArrayCall)
    requires AtArray(s.data, path) && At(s.data, path).value.wrapped
    requires var a := At(s.data, path).value; |Native(a.items, call).items| != |a.items|
    requires AllUser(s.listeners)
    requires var a := At(s.data, path).value;
             var s1 := s.(data := Update(s.data, path, Arr(Patched(a.items, call).items, true)));
             IsDirty(c.kind, s1.data, s1.previous, true)
             && ListenerView(c.kind, s1.data, true).Ok? && ListenerView(c.kind, s1.previous, true).Ok?
    ensures var r := Mutate(c, s, path, call);
            r.result.Ok? && |r.state.invoked| == |s.invoked| + |s.listeners|
  {
    var a := At(s.data, path).value;
    ListenersFireOnce(c.kind, s.(data := Update(s.data, path, Arr(Patched(a.items, call).items, true))));
  }
}
