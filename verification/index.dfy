/** index.js: the fluent entry point `wrap(func)`, `wrap.the`, and its own copies of
    `wrapWithHook` (apply and construct traps only, no cache) and `buildPrePostHook`
    (hooks called with no arguments). */
module Index {
  import opened Js
  import opened Callability
  import opened PrePostHooks
  import opened Traps

  const FuncMessage := "The object to be wrapped must be a function"
  const HookMessage := "The hook must be a function"

  /** The object `wrap(func)` returns; its four methods are the methods below. */
  datatype Builder = Builder(func: Value)

  /** A wrapper of `target` built by this file: the apply arrow (which never forces `this`)
      and the construct arrow hand their thunks to `hook`; there is no get trap. */
  ghost predicate Installed(p: Proxy, target: Fn, hook: Fn)
    reads p.handler
  {
    && p.target == target
    && p.handler.apply == Some(ApplyTrap(hook, Undefined))
    && p.handler.construct == Some(ConstructTrap(p, hook))
    && p.handler.get == None
  }

  /** What `wrapWithHook(func, hook)` ends with: `func` is checked first, then `hook`. */
  ghost predicate WrapsWith(r: Result<Proxy, Error>, func: Value, hook: Value)
    reads if r.Success? then {r.value.handler} else {}
  {
    if !IsCallable(func) then r == Failure(TypeError(FuncMessage))
    else if !IsCallable(hook) then r == Failure(TypeError(HookMessage))
    else r.Success? && Installed(r.value, func.f, hook.f)
  }

  /** `wrapWithHook(func, hook)`: fails before any proxy exists when an argument is not a
      function; otherwise a fresh proxy whose traps were assigned after its creation. */
  method WrapWithHook(func: Value, hook: Value) returns (r: Result<Proxy, Error>)
    ensures WrapsWith(r, func, hook)
    ensures r.Success? ==> fresh(r.value) && fresh(r.value.handler)
  {
    var checked := CheckFunction(func, FuncMessage);
    if checked.Err? {
      return Failure(checked.error);
    }
    checked := CheckFunction(hook, HookMessage);
    if checked.Err? {
      return Failure(checked.error);
    }
    var handler := new Handler();
    var proxy := new Proxy(func.f, handler);
    handler.apply := Some(ApplyTrap(hook.f, Undefined));
    handler.construct := Some(ConstructTrap(proxy, hook.f));
    return Success(proxy);
  }

  /** index.js's `buildPrePostHook(preHook, postHook)`: the pre-hook is checked first. */
  function BuildPrePostHook(preHook: Value, postHook: Value): (r: Result<Fn, Error>)
    ensures !IsCallable(preHook) ==> r == Failure(TypeError(PreHookMessage))
    ensures IsCallable(preHook) && !IsCallable(postHook) ==> r == Failure(TypeError(PostHookMessage))
    ensures r.Success? <==> IsCallable(preHook) && IsCallable(postHook)
    ensures r.Success? ==> r.value == IndexPrePostHook(preHook.f, postHook.f)
  {
    var preChecked := CheckFunction(preHook, PreHookMessage);
    if preChecked.Err? then Failure(preChecked.error)
    else
      var postChecked := CheckFunction(postHook, PostHookMessage);
      if postChecked.Err? then Failure(postChecked.error)
      else Success(IndexPrePostHook(preHook.f, postHook.f))
  }

  /** `wrap(func).withHook(hook)`. */
  method WithHook(b: Builder, hook: Value) returns (r: Result<Proxy, Error>)
    ensures WrapsWith(r, b.func, hook)
    ensures r.Success? ==> fresh(r.value) && fresh(r.value.handler)
  {
    r := WrapWithHook(b.func, hook);
  }

  /** `wrap(func).withPrePostHooks(pre, post)`: the hook is built, and its arguments checked,
      before `wrapWithHook` checks `func`. */
  method WithPrePostHooks(b: Builder, pre: Value, post: Value) returns (r: Result<Proxy, Error>)
    ensures !IsCallable(pre) ==> r == Failure(TypeError(PreHookMessage))
    ensures IsCallable(pre) && !IsCallable(post) ==> r == Failure(TypeError(PostHookMessage))
    ensures IsCallable(pre) && IsCallable(post) ==> WrapsWith(r, b.func, Func(IndexPrePostHook(pre.f, post.f)))
    ensures r.Success? ==> fresh(r.value) && fresh(r.value.handler)
  {
    var hook := BuildPrePostHook(pre, post);
    if hook.Failure? {
      return Failure(hook.error);
    }
    r := WrapWithHook(b.func, Func(hook.value));
  }

  /** `wrap(func).withPreHook(pre)`: composed with `nop` as post-hook. */
  method WithPreHook(b: Builder, pre: Value) returns (r: Result<Proxy, Error>)
    ensures !IsCallable(pre) ==> r == Failure(TypeError(PreHookMessage))
    ensures IsCallable(pre) ==> WrapsWith(r, b.func, Func(IndexPrePostHook(pre.f, Nop)))
    ensures r.Success? ==> fresh(r.value) && fresh(r.value.handler)
  {
    r := WithPrePostHooks(b, pre, Func(Nop));
  }

  /** `wrap(func).withPostHook(post)`: composed with `nop` as pre-hook. */
  method WithPostHook(b: Builder, post: Value) returns (r: Result<Proxy, Error>)
    ensures !IsCallable(post) ==> r == Failure(TypeError(PostHookMessage))
    ensures IsCallable(post) ==> WrapsWith(r, b.func, Func(IndexPrePostHook(Nop, post.f)))
    ensures r.Success? ==> fresh(r.value) && fresh(r.value.handler)
  {
    r := WithPrePostHooks(b, Func(Nop), post);
  }

  /** `wrap.the(func)`: the identity hook `f => f()`. */
  method The(func: Value) returns (r: Result<Proxy, Error>)
    ensures WrapsWith(r, func, Func(InvokeThunk))
    ensures r.Success? ==> fresh(r.value) && fresh(r.value.handler)
  {
    r := WrapWithHook(func, Func(InvokeThunk));
  }

  /** Invoking a wrapper built with pre/post hooks: the pre-hook runs first and a throw
      from it aborts the invocation; otherwise the target runs once, then the post-hook,
      and the outcome is the target's own (as if invoked directly) unless the post-hook
      throws, in which case its error replaces it. */
  lemma PrePostWrapperInvocation(rt: Runtime, p: Proxy, target: Fn, pre: Fn, post: Fn, inv: Invocation)
    requires Installed(p, target, IndexPrePostHook(pre, post))
    ensures Dispatch(p, inv).Some?
    ensures var run := InvokeHook(rt, Dispatch(p, inv).value);
      var preOutcome := CallPlain(rt, pre, []);
      var postOutcome := CallPlain(rt, post, []);
      && (preOutcome.Err? ==> run == Run([PreHookCalled([])], preOutcome))
      && (preOutcome.Ok? ==> run.trace == [PreHookCalled([]), ThunkCalled, PostHookCalled([])])
      && (preOutcome.Ok? && postOutcome.Ok? ==> run.outcome == Direct(rt, p, inv))
      && (preOutcome.Ok? && postOutcome.Err? ==> run.outcome == postOutcome)
  {
    var hc := Dispatch(p, inv).value;
    assert RunThunk(rt, hc.thunk) == Direct(rt, p, inv);
  }

  /** `withPreHook`: the wrapper's outcome is the pre-hook's error if it throws, and the
      target's own outcome otherwise (the no-op post-hook never interferes). */
  lemma PreHookOnly(rt: Runtime, p: Proxy, target: Fn, pre: Fn, inv: Invocation)
    requires Installed(p, target, IndexPrePostHook(pre, Nop))
    ensures Dispatch(p, inv).Some?
    ensures InvokeHook(rt, Dispatch(p, inv).value).outcome
         == if CallPlain(rt, pre, []).Err? then CallPlain(rt, pre, []) else Direct(rt, p, inv)
  {
    PrePostWrapperInvocation(rt, p, target, pre, Nop, inv);
  }

  /** `withPostHook`: the target always runs, and its outcome stands unless the post-hook
      throws. */
  lemma PostHookOnly(rt: Runtime, p: Proxy, target: Fn, post: Fn, inv: Invocation)
    requires Installed(p, target, IndexPrePostHook(Nop, post))
    ensures Dispatch(p, inv).Some?
    ensures InvokeHook(rt, Dispatch(p, inv).value).trace == [PreHookCalled([]), ThunkCalled, PostHookCalled([])]
    ensures InvokeHook(rt, Dispatch(p, inv).value).outcome
         == if CallPlain(rt, post, []).Err? then CallPlain(rt, post, []) else Direct(rt, p, inv)
  {
    PrePostWrapperInvocation(rt, p, target, Nop, post, inv);
  }

  /** `wrap.the(f)` is transparent: every call and construction of the wrapper has the
      outcome of invoking `f` directly. */
  lemma TheIsTransparent(rt: Runtime, p: Proxy, target: Fn, inv: Invocation)
    requires Installed(p, target, InvokeThunk)
    ensures Dispatch(p, inv).Some?
    ensures InvokeHook(rt, Dispatch(p, inv).value).outcome == Direct(rt, p, inv)
  {
    IdentityHookIsTransparent(rt, p, inv);
  }
}
