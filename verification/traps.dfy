/** The apply and construct traps of lib/wrapper.js, what a proxy does with them when
    it is called or constructed, and what a hook does with the thunk it receives. */
module Traps {
  import opened Js
  import PrePostHooks

  /** `applicationTrap(hook, dis, target, thisArg, argumentsList)`: the hook receives a
      thunk calling the target with `dis` as `this` when `dis` is defined, with the
      caller's `thisArg` otherwise; the trap returns what the hook returns. */
  function ApplicationTrap(hook: Fn, dis: Value, target: Fn, thisArg: Value, args: seq<Value>): (r: HookCall)
    ensures r.hook == hook
    ensures dis != Undefined ==> r.thunk == BoundCall(target, dis, args)
    ensures dis == Undefined ==> r.thunk == BoundCall(target, thisArg, args)
  {
    var effectiveThis := if dis != Undefined then dis else thisArg;
    HookCall(hook, BoundCall(target, effectiveThis, args))
  }

  /** `constructorTrap(proxy, hook, target, argumentsList, newTarget)`: a new-target that is
      the proxy itself is replaced by the target, any other passes through; the hook
      receives a thunk constructing the target with the same arguments. */
  function ConstructorTrap(proxy: Proxy, hook: Fn, target: Fn, args: seq<Value>, newTarget: Value): (r: HookCall)
    ensures r.hook == hook
    ensures newTarget == Func(Wrapper(proxy)) ==> r.thunk == BoundConstruct(target, args, Func(target))
    ensures newTarget != Func(Wrapper(proxy)) ==> r.thunk == BoundConstruct(target, args, newTarget)
  {
    var effectiveNewTarget := if newTarget == Func(Wrapper(proxy)) then Func(target) else newTarget;
    HookCall(hook, BoundConstruct(target, args, effectiveNewTarget))
  }

  /** What invoking a proxy does: hand the invocation to the handler's trap for it.
      `None` when the handler has no such trap (the proxy would then forward to its
      target; the wrappers built here always have both traps). */
  function Dispatch(p: Proxy, inv: Invocation): Option<HookCall>
    reads p.handler
  {
    match inv
    case Call(thisArg, args) =>
      (match p.handler.apply
       case None => None
       case Some(t) => Some(ApplicationTrap(t.hook, t.dis, p.target, thisArg, args)))
    case Construct(args, newTarget) =>
      (match p.handler.construct
       case None => None
       case Some(t) => Some(ConstructorTrap(t.proxy, t.hook, p.target, args, newTarget)))
  }

  /** `hook(thunk)`: the identity hook `f => f()` runs the thunk; the composed hooks bracket
      it (lib's `hook(func, metadata)` is called with one argument, so `metadata` is
      undefined; index.js's hooks take no arguments); any other hook is user code, called
      with the thunk as its only argument. */
  function InvokeHook(rt: Runtime, hc: HookCall): (r: PrePostHooks.Run)
    ensures hc.hook == InvokeThunk ==> r == PrePostHooks.Run([PrePostHooks.ThunkCalled], RunThunk(rt, hc.thunk))
    ensures hc.hook.LibPrePostHook? ==>
      PrePostHooks.Brackets(r, [Undefined], CallPlain(rt, hc.hook.pre, [Undefined]), RunThunk(rt, hc.thunk),
                            CallPlain(rt, hc.hook.post, [Undefined]))
    ensures hc.hook.IndexPrePostHook? ==>
      PrePostHooks.Brackets(r, [], CallPlain(rt, hc.hook.pre, []), RunThunk(rt, hc.thunk),
                            CallPlain(rt, hc.hook.post, []))
    ensures hc.hook != InvokeThunk && !hc.hook.LibPrePostHook? && !hc.hook.IndexPrePostHook? ==>
      r.trace == [] && r.outcome == CallPlain(rt, hc.hook, [Func(ThunkFn(hc.thunk))])
  {
    match hc.hook
    case InvokeThunk =>
      PrePostHooks.Run([PrePostHooks.ThunkCalled], RunThunk(rt, hc.thunk))
    case LibPrePostHook(_, pre, post) =>
      PrePostHooks.Hook(rt, pre, post, hc.thunk, Undefined)
    case IndexPrePostHook(pre, post) =>
      PrePostHooks.Bracket([], CallPlain(rt, pre, []), RunThunk(rt, hc.thunk), CallPlain(rt, post, []))
    case _ =>
      PrePostHooks.Run([], CallPlain(rt, hc.hook, [Func(ThunkFn(hc.thunk))]))
  }

  /** What invoking the target itself, in place of the wrapper `p`, would give: the same
      call, or the same construction with the wrapper as new-target read as the target.
      That reading is the substitution `ConstructorTrap` makes, so the construct half of
      a transparency statement about the wrapper holds by that very substitution: it says
      the wrapper behaves as its target with the wrapper, as new-target, taken for the
      target. A wrapper among the arguments or as `this` is not replaced. */
  function Direct(rt: Runtime, p: Proxy, inv: Invocation): Outcome
  {
    match inv
    case Call(thisArg, args) => rt.call(p.target, thisArg, args)
    case Construct(args, newTarget) =>
      rt.construct(p.target, args, if newTarget == Func(Wrapper(p)) then Func(p.target) else newTarget)
  }

  /** With the identity hook `f => f()` and no forced `this`, a wrapper is transparent:
      every call and construction has exactly the outcome (result or thrown error) that
      invoking the target directly has, and the thunk runs once. */
  lemma IdentityHookIsTransparent(rt: Runtime, p: Proxy, inv: Invocation)
    requires p.handler.apply == Some(ApplyTrap(InvokeThunk, Undefined))
    requires p.handler.construct == Some(ConstructTrap(p, InvokeThunk))
    ensures Dispatch(p, inv).Some?
    ensures InvokeHook(rt, Dispatch(p, inv).value) == PrePostHooks.Run([PrePostHooks.ThunkCalled], Direct(rt, p, inv))
  {
  }
}
