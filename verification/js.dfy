/** The slice of the JavaScript value space the interception library works with:
    values and callables, the outcome of running code (a value or a thrown error),
    the deferred invocations ("thunks") handed to hooks, and the Proxy objects and
    handler records that the wrappers are built from. */
module Js {

  datatype Option<T> = None | Some(value: T)

  datatype Result<T, E> = Success(value: T) | Failure(error: E)

  /** How a user function was declared; only callability matters to the library. */
  datatype FnKind = Ordinary | Arrow | Generator | Async | ClassConstructor | Bound | Method

  /** A callable, identified by what it is. */
  datatype Fn =
    | Native(id: nat, kind: FnKind)                   // a function defined by the program using the library
    | FunctionPrototypeToString                       // the built-in Function.prototype.toString
    | InvokeThunk                                     // the arrow `f => f()`, the identity hook
    | Nop                                             // `function nop () { }` of index.js
    | LibPrePostHook(closure: nat, pre: Fn, post: Fn) // `function hook (func, metadata)` built by lib/prePostHooks.js
    | IndexPrePostHook(pre: Fn, post: Fn)             // `function (func)` built by index.js
    | ThunkFn(thunk: Thunk)                           // the bound function handed to a hook
    | Wrapper(proxy: Proxy)                           // a proxy around a function

  datatype Value =
    | Undefined
    | Null
    | Boolean(b: bool)
    | Number(n: int)
    | String(s: string)
    | Symbol(symbolId: nat)
    | Object(objectId: nat, isArray: bool)
    | Func(f: Fn)

  datatype Key = StringKey(name: string) | SymbolKey(keyId: nat)

  const ToStringKey: Key := StringKey("toString")

  datatype Error = TypeError(message: string) | Thrown(thrown: Value)

  /** What running a piece of code ends with: a returned value or a thrown error. */
  datatype Outcome = Ok(value: Value) | Err(error: Error)

  /** A zero-argument deferred invocation of a target:
      `Function.prototype.bind.call(target, thisArg, ...args)` or
      `Reflect.construct` of `target` with fixed arguments and new-target. */
  datatype Thunk =
    | BoundCall(target: Fn, thisArg: Value, args: seq<Value>)
    | BoundConstruct(target: Fn, args: seq<Value>, newTarget: Value)

  /** How a wrapper is invoked: as a plain call or with `new`. */
  datatype Invocation =
    | Call(thisArg: Value, args: seq<Value>)
    | Construct(args: seq<Value>, newTarget: Value)

  /** What a trap does: call `hook` with `thunk` and return what the hook returns. */
  datatype HookCall = HookCall(hook: Fn, thunk: Thunk)

  /** The behaviour of code outside the library (user functions, built-ins):
      the outcome of calling or constructing a function. */
  datatype Runtime = Runtime(
    call: (Fn, Value, seq<Value>) -> Outcome,
    construct: (Fn, seq<Value>, Value) -> Outcome)

  /** Running a thunk performs exactly the call or construction it was bound to. */
  function RunThunk(rt: Runtime, t: Thunk): Outcome
  {
    match t
    case BoundCall(target, thisArg, args) => rt.call(target, thisArg, args)
    case BoundConstruct(target, args, newTarget) => rt.construct(target, args, newTarget)
  }

  /** `f(...args)` in strict mode (`this` is undefined); the library's own `nop`
      returns undefined, every other function is user code. */
  function CallPlain(rt: Runtime, f: Fn, args: seq<Value>): Outcome
  {
    if f == Nop then Ok(Undefined) else rt.call(f, Undefined, args)
  }

  /** `applicationTrap.bind(null, hook, dis)`; index.js's apply arrow behaves as `dis` undefined. */
  datatype ApplyTrap = ApplyTrap(hook: Fn, dis: Value)

  /** `constructorTrap.bind(null, proxy, hook)` (index.js: the construct arrow closing over both). */
  datatype ConstructTrap = ConstructTrap(proxy: Proxy, hook: Fn)

  /** `propertyAccessTrap.bind(null, func)`. */
  datatype GetTrap = GetTrap(wrappedFunction: Fn)

  /** The handler object `{ }` whose traps are assigned after the proxy is created. */
  class Handler {
    var apply: Option<ApplyTrap>
    var construct: Option<ConstructTrap>
    var get: Option<GetTrap>

    constructor ()
      ensures apply == None && construct == None && get == None
    {
      apply, construct, get := None, None, None;
    }
  }

  /** `new Proxy(target, handler)`: a fresh callable whose behaviour is given by the handler. */
  class Proxy {
    const target: Fn
    const handler: Handler

    constructor (target: Fn, handler: Handler)
      ensures this.target == target && this.handler == handler
    {
      this.target := target;
      this.handler := handler;
    }
  }
}
