# wrapper-roo interception core, modelled in Dafny

wrapper-roo wraps a JavaScript function in a `Proxy`. Every call or `new` of the
wrapper is handed to a *hook* as a *thunk*: a zero-argument deferred invocation of
the original function. A hook built from a pre-hook and a post-hook brackets that
one invocation: the pre-hook runs first, then the thunk inside `try`, then the
post-hook in `finally`. Reading `toString` on a wrapper returns a cached wrapped
stringifier of the original function. That cache is process-wide and filled with a
placeholder before recursing.

This project models that decision logic and proves what it promises.

| file | module | models |
|---|---|---|
| `js.dfy` | `Js` | Values and functions, including the library's own closures (`nop`, `f => f()`, the composed hooks). Also outcomes (a value or a thrown error), thunks, invocations (`Call(this, args)` or `Construct(args, newTarget)`), a `Runtime` giving the behaviour of user code, and the `Proxy` and handler objects. |
| `check_function.dfy` | `Callability` | `lib/checkFunction.js`, and the identical helper in `index.js` |
| `pre_post_hooks.dfy` | `PrePostHooks` | `lib/prePostHooks.js`. `Bracket` is the pre / try / finally core, and `index.js` uses it too. |
| `traps.dfy` | `Traps` | The apply and construct traps of `lib/wrapper.js`, what a proxy does with its handler, and what a hook does with its thunk |
| `index.dfy` | `Index` | `index.js`: the `wrap(func)` builder, `wrap.the`, its own `wrapWithHook` and `buildPrePostHook` |
| `wrapper.dfy` | `Wrapper` | `lib/wrapper.js`: class `Interceptor` owns `toStringCache`. `WrapWithHook` and `CacheHookedToString` are its mutually recursive methods. The get trap reads the cache. |
| `metadata.dfy` | `Metadata` | `lib/metadata.js`: class `InvocationData` and its validating constructor |

Notes on the model:

- User code is opaque. It is a `Runtime` parameter: the outcome of calling or constructing a function.
- The library's own closures have explicit meaning: `nop` returns undefined, and `f => f()` runs its thunk.
- A hook's `Run` records the calls the composed hook makes (pre-hook, thunk, post-hook) and the final outcome.
- The apply arrow in `index.js` is `applicationTrap` of `lib/wrapper.js` with `dis` undefined. Its handler therefore stores `ApplyTrap(hook, Undefined)` and has no get trap. The construct arrow is the same decision as `constructorTrap`.
- Termination of the wrapping recursion in `lib/wrapper.js`: `WrapWithHook(func)` and `CacheHookedToString(func)` decrease the set of functions, among `func` and `Function.prototype.toString`, that are not yet keys of the cache. The placeholder stored before the nested call is what makes that set shrink.

Where the repository's tests expect more than the code does, the model follows the code:

- test/metadata.js:10-21 and :31-60 expect hooks to receive invocation metadata: `function`, `arguments`, `constructor`, `this`, `boundFunction`, and after the call `result`, `exception` and `success`. The traps of `lib/wrapper.js` (lines 60 and 72) call `hook(thunk)` with one argument. So the `hook(func, metadata)` of `lib/prePostHooks.js` sees `metadata` undefined when it is used there, and the `index.js` hooks (lines 66 and 72) call the pre-hook and post-hook with no arguments.
- `lib/metadata.js:12-14` sets only `function`, `arguments` and `constructor`.
- In `index.js:11-13`, `withPreHook`, `withPostHook` and `withPrePostHooks` build the hook before `wrapWithHook` checks `func`. A bad pre-hook or post-hook is therefore reported before a bad `func`.
- Each call of `buildPrePostHook` in `lib/prePostHooks.js` creates a new function object. The model gives that object an identity, `closure`, so two hooks built from the same pre-hook and post-hook are two different keys of the toString cache.

## Model

| member | source | states |
|---|---|---|
| `Callability.CheckFunction` | lib/checkFunction.js:4-8 | Returns normally, with undefined, exactly when the value is a function. Every other value is refused with a `TypeError` carrying exactly the supplied message. `index.js:55-59` is an identical copy. |
| `Callability.EveryFunctionKindPasses` | lib/checkFunction.js:5 | Only callability is tested. Arrows, generators, async functions, bound functions, methods and classes all pass. |
| `PrePostHooks.Bracket` | lib/prePostHooks.js:11-20 | A throwing pre-hook ends the run at once: it is the only call and its error is the outcome. Otherwise the calls are exactly pre-hook, thunk, post-hook, both hooks with the same arguments. The outcome is then the post-hook's error if it throws, and otherwise the thunk's own outcome (value or error). |
| `PrePostHooks.BuildPrePostHook` | lib/prePostHooks.js:6-11 | Rejects a non-function pre-hook with its `TypeError` first, then a non-function post-hook. It succeeds exactly when both are functions. The result is a new function object closing over both, so separately built hooks are different functions. |
| `PrePostHooks.PreHookFailureAborts` | lib/prePostHooks.js:12-13 | If the pre-hook throws, its error propagates. Neither the thunk nor the post-hook is ever called. |
| `PrePostHooks.NormalTrace` | lib/prePostHooks.js:13-19 | Once the pre-hook returns, the calls are exactly pre-hook, thunk, post-hook, whether the thunk or the post-hook throws. Both hooks get the same arguments (the same metadata). |
| `PrePostHooks.EachCalledOnce` | lib/prePostHooks.js:16-19 | Once the pre-hook returns, each of the pre-hook, the thunk and the post-hook is called exactly once. |
| `PrePostHooks.ResultPreserved` | lib/prePostHooks.js:17 | If neither the thunk nor the post-hook throws, the thunk's result is returned unchanged. |
| `PrePostHooks.ThunkErrorPropagates` | lib/prePostHooks.js:16-20 | If the thunk throws and the post-hook does not, the thunk's error is the one that propagates. |
| `PrePostHooks.PostHookErrorOverrides` | lib/prePostHooks.js:18-20 | A throwing post-hook's error is the outcome, whatever the thunk did (`finally` override). |
| `PrePostHooks.Hook` | lib/prePostHooks.js:11-21 | The built `hook(func, metadata)` calls the pre-hook, `func` and the post-hook in that order, both hooks with the same `metadata`, and stops after the pre-hook if it throws. Its outcome is `func`'s unless a hook throws, and then it is that hook's error. |
| `Traps.ApplicationTrap` | lib/wrapper.js:48-61 | The hook receives a thunk calling the target with the same arguments. `this` is `dis` when `dis` is defined, and the caller's `thisArg` otherwise. The trap's result is the call of that same hook. |
| `Traps.ConstructorTrap` | lib/wrapper.js:63-73 | A new-target that is the proxy itself is replaced by the target. Any other new-target passes unchanged. The thunk constructs the target with the same arguments, and the hook is the one bound. |
| `Traps.InvokeHook` | index.js:65-74 | What a hook does with the thunk a trap gives it (`lib/wrapper.js:60,72`, `index.js:38,48`). The arrow `f => f()` runs the thunk once and has its outcome. The `index.js` composed hook brackets the thunk between its pre-hook and post-hook called with no arguments. The `lib/prePostHooks.js` hook does the same with `metadata` undefined. Any other hook is called once with the thunk as its only argument. |
| `Traps.IdentityHookIsTransparent` | lib/wrapper.js:60-72 | With hook `f => f()` and no forced `this`, every call and construction of the wrapper runs the thunk once. Its outcome is that of invoking the target directly. |
| `Index.WrapWithHook` | index.js:24-52 | Checks `func` first, then `hook`. Both checks happen before any proxy exists, each failure a `TypeError` with its own message. On success, a fresh proxy of `func` whose apply and construct traps hand thunks to `hook`. |
| `Index.BuildPrePostHook` | index.js:61-63 | Pre-hook checked first, then post-hook, each failure a `TypeError`. It succeeds exactly when both are functions. |
| `Index.WithHook` | index.js:10 | The same result as `wrapWithHook(func, hook)`. |
| `Index.WithPrePostHooks` | index.js:13 | The hook is built first, so a bad pre-hook, then a bad post-hook, is reported before a bad `func`. Otherwise the result is `wrapWithHook` with the composed hook. |
| `Index.WithPreHook` | index.js:11 | Composes the pre-hook with `nop` as post-hook. A bad pre-hook is reported first. |
| `Index.WithPostHook` | index.js:12 | Composes `nop` as pre-hook with the post-hook. A bad post-hook is reported first. |
| `Index.The` | index.js:18 | Wraps with the identity hook `f => f()`, with the same argument checks as `wrapWithHook`. |
| `Index.PrePostWrapperInvocation` | index.js:65-74 | Invoking a pre/post wrapper runs the pre-hook first, and a throw from it aborts. Otherwise the calls are exactly pre-hook, target, post-hook. The outcome is the target's direct outcome unless the post-hook throws, and then it is the post-hook's error. |
| `Index.PreHookOnly` | index.js:11 | A `withPreHook` wrapper's outcome is the pre-hook's error if it throws, and otherwise the target's direct outcome. |
| `Index.PostHookOnly` | index.js:12 | A `withPostHook` wrapper always runs the target and then the post-hook once. Its outcome is the post-hook's error if it throws, and otherwise the target's direct outcome. |
| `Index.TheIsTransparent` | index.js:18 | Any call or construction of `wrap.the(f)` has exactly the outcome (result or thrown error) of invoking `f` directly. This includes the proxy as new-target being read as `f`. |
| `Wrapper.PropertyAccessTrap` | lib/wrapper.js:75-88 | Reading `'toString'` when the resolved value is the original `Function.prototype.toString` gives the cached stringifier of the wrapped function. Every other read, including aliases of the original toString, gives the resolved value unchanged. |
| `Wrapper.Interceptor.constructor` | lib/wrapper.js:10 | The cache starts empty, so it is valid and settled. |
| `Wrapper.Interceptor.WrapWithHook` | lib/wrapper.js:15-31 | Checks `func`, then `hook`, before touching the cache. On success: a fresh proxy with apply trap `(hook, dis)`, construct trap `(proxy, hook)` and get trap `(func)`. `func` is then a cache key, and no entry present before was changed. Every cached wrapper stays the stringifier of its key. A settled cache stays settled (no placeholder). |
| `Wrapper.Interceptor.CacheHookedToString` | lib/wrapper.js:33-44 | Changes nothing when `func` is already a key. Otherwise it adds `func` and `Function.prototype.toString`, each with a real wrapper (never the placeholder). Existing entries are never overwritten. The recursion terminates. |
| `Wrapper.HistoryGrows` | lib/wrapper.js:35-43 | Along any sequence of cache states in which each step only adds entries, every later state keeps every earlier entry unchanged. |
| `Wrapper.ToStringIsStable` | lib/wrapper.js:85-87 | Repeated `toString` reads through any wrappers of the same function, at any two moments of such a history, give the identical cached function. |
| `Wrapper.StringifierPrintsTarget` | lib/wrapper.js:40 | Calling the cached stringifier of `f`, with any receiver and arguments, calls `Function.prototype.toString` with `f` as `this`. |
| `Wrapper.StringifiersAreDistinct` | lib/wrapper.js:35-43 | In a valid cache, two different keys hold two different stringifiers. So wrappers of two separately built hooks hand out `toString` functions that are not `===`. |
| `Wrapper.ToStringReadGivesStringifier` | lib/wrapper.js:19 | Between top-level calls, reading `toString` on a wrapper of a function that has been wrapped gives that function's own stringifier, never the placeholder. |
| `Metadata.Validate` | lib/metadata.js:8-10 | Checks run in the order function, arguments array, constructor, and the first failing check's `TypeError` is the outcome. An undefined constructor is accepted. A defined constructor must be a function. Success returns undefined. |
| `Metadata.InvocationData.New` | lib/metadata.js:7-15 | A failing check throws before any record exists. Otherwise a fresh record holds exactly the three inputs, and they pass the checks (`Valid`). |
| `Metadata.InvocationData.Assign` | lib/metadata.js:12-14 | `function`, `arguments` and `constructor` are set to the inputs. The class has no other fields. |

## Left out

- Property forwarding by the JavaScript `Proxy` is not modelled: `name`, `length`, `prototype`, own and symbol-keyed descriptors, and the internal prototype. That is runtime behaviour. The get trap takes the value standard resolution produced as an input.
- `Function.prototype.bind`, `Reflect.construct` and `Reflect.get` are not modelled. Thunks are run through the `Runtime` parameter. So the `TypeError` from constructing an arrow, a generator or a class, and the prototype rules of bound functions, are not modelled.
- The `Runtime` is a function, so a given call always has the same outcome in it. Side effects of user hooks or targets (a counter, a spy) are visible only through the recorded trace of calls.
- A wrapper called from inside a hook or a target is treated as opaque user code. Re-entrant invocation is not unfolded.
- `WeakMap` garbage collection is not modelled; the cache is a plain map.
- `withCustomHook` and the metadata fields `this`, `boundFunction`, `result`, `exception` and `success` have no implementation in these files, so they are not modelled. Neither is immutability of the metadata fields.
- `lib/checkFunction.js` uses an ES module `export default`, while the other files load it with `require`. How modules are loaded is not part of this model.
- Numbers are modelled as integers, so no `NaN` arises in `===` comparisons.
- Wrapper.Interceptor.WrapWithHook: the thunk handed to a hook (`ThunkFn`) is identified by its target, `this` and arguments. JavaScript creates a new bound function or arrow for every invocation, so two thunks with the same binding are two cache keys there and one in the model. Only a hook that wraps its own thunk with the `wrapWithHook` of `lib/wrapper.js` can observe the difference.
- The arrow `f => f()` and the hooks `index.js` composes carry no identity. They live only inside handlers that callers cannot reach, so they never become cache keys.
