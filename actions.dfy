/**
 * Action records (lib/core/Action.js, src/core/Action.ts): the handler
 * types, the `Action` that holds a callback, and the `Executable` that pairs
 * an action with the parameters it is applied to.
 *
 * A user callback is opaque. What a call of it returns or throws is supplied
 * by the caller as an `Outcome`, and every call is recorded as an `Invocation`
 * so that contracts can say which callbacks ran with which arguments.
 */
module Actions {
  import opened Wrappers
  import opened Values

  datatype ActionType = LOADER | TRANSFORMER | LISTENER | ACTION | INLINE_ACTION

  /** The number the enum gives each member: declaration order from 0. */
  function Ordinal(t: ActionType): (r: nat)
    ensures r < 5 && FromOrdinal(r) == Some(t)
  {
    match t
    case LOADER => 0
    case TRANSFORMER => 1
    case LISTENER => 2
    case ACTION => 3
    case INLINE_ACTION => 4
  }

  /** The enum's reverse mapping `ActionType[n]`. */
  function FromOrdinal(n: int): (r: Option<ActionType>)
    ensures r.Some? <==> 0 <= n < 5
  {
    if n == 0 then Some(LOADER)
    else if n == 1 then Some(TRANSFORMER)
    else if n == 2 then Some(LISTENER)
    else if n == 3 then Some(ACTION)
    else if n == 4 then Some(INLINE_ACTION)
    else None
  }

  /**
   * A callback: `Absent` is a falsy one (`undefined`), `NoOp` is the empty
   * function the stores substitute for a missing or gated handler, and
   * `User(id)` is a function supplied by the program.
   */
  datatype Callback = Absent | NoOp | User(id: nat)

  datatype Action = Action(name: string, callback: Callback, actionType: ActionType)

  /** `new Action(name, callback, actionType = ActionType.ACTION)`. */
  function NewAction(name: string, callback: Callback, actionType: ActionType := ACTION): (r: Action)
    ensures r.name == name && r.callback == callback && r.actionType == actionType
  {
    Action(name, callback, actionType)
  }

  /** `new Action('no-op', function () {})`: an ACTION whose callback does nothing. */
  function NoOpAction(): (r: Action)
    ensures r.actionType == ACTION && r.callback == NoOp
  {
    NewAction("no-op", NoOp)
  }

  datatype Executable = Executable(action: Action, params: seq<Value>)

  /**
   * `Executable.createExecutor(action, ...params)`: the rest parameter keeps
   * the arguments exactly as passed, so `createExecutor(a, xs)` with one array
   * `xs` has the single parameter `xs`.
   */
  function CreateExecutor(action: Action, params: seq<Value>): (r: Executable)
    ensures r.action == action && r.params == params
  {
    Executable(action, params)
  }

  /** What a call of a user callback does: return a value or throw. */
  datatype Outcome = Returns(value: Value) | Throws(message: string)

  /** A call of program code: a user callback, or a method of the stored data (inline actions). */
  datatype Invocation = Call(callback: nat, params: seq<Value>) | MethodCall(name: string, args: seq<Value>)

  /**
   * What `execute()` resolves to: `undefined` without a user callback, the
   * callback's result otherwise, and a rejection with a new `Error` built from
   * what the callback threw.
   */
  function Run(e: Executable, outcome: Outcome): (r: Result<Value, Error>)
    ensures !e.action.callback.User? ==> r == Ok(Undefined)
    ensures e.action.callback.User? ==> (r.Ok? <==> outcome.Returns?)
    ensures e.action.callback.User? && outcome.Returns? ==> r == Ok(outcome.value)
    ensures e.action.callback.User? && outcome.Throws? ==> r == Err(CallbackFailed(outcome.message))
  {
    match e.action.callback
    case User(_) =>
      (match outcome
       case Returns(v) => Ok(v)
       case Throws(m) => Err(CallbackFailed(m)))
    case _ => Ok(Undefined)
  }

  /** The program calls `execute()` makes: its callback once, with its params, if it has a user callback. */
  function Calls(e: Executable): (r: seq<Invocation>)
    ensures |r| <= 1 && (r != [] <==> e.action.callback.User?)
    ensures r != [] ==> r[0] == Call(e.action.callback.id, e.params)
  {
    match e.action.callback
    case User(id) => [Call(id, e.params)]
    case _ => []
  }
}
