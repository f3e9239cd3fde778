/** lib/wrapper.js: `wrapWithHook(func, hook, dis)` with its process-wide cache of
    wrapped stringifiers, filled by `cacheHookedToString`, and the get trap that hands
    out the cached stringifier. */
module Wrapper {
  import opened Js
  import opened Callability
  import opened Traps

  const FuncMessage := "The object to be wrapped must be a function"
  const HookMessage := "The hook must be a function"

  /** `toStringCache`: each function to its wrapped toString; `None` is the `null`
      placeholder stored while that wrapper is being built. */
  type Cache = map<Fn, Option<Proxy>>

  /** `toStringCache.get(f)`: undefined when absent, null for the placeholder. */
  function CacheGet(cache: Cache, f: Fn): Value
  {
    if f !in cache then Undefined
    else match cache[f]
      case None => Null
      case Some(p) => Func(Wrapper(p))
  }

  /** The property resolved is the original `Function.prototype.toString`, read under the
      key 'toString' itself (not through an alias). */
  predicate IsDirectToString(propertyKey: Key, result: Value)
  {
    result == Func(FunctionPrototypeToString) && propertyKey == ToStringKey
  }

  /** `propertyAccessTrap(wrappedFunction, target, propertyKey, receiver)`, given the value
      `result` that standard resolution on the target gave: the cached stringifier when
      the original toString is read directly, `result` unchanged otherwise. */
  function PropertyAccessTrap(cache: Cache, wrappedFunction: Fn, propertyKey: Key, result: Value): (r: Value)
    ensures IsDirectToString(propertyKey, result) && wrappedFunction in cache && cache[wrappedFunction].Some? ==>
      r == Func(Wrapper(cache[wrappedFunction].value))
    ensures !IsDirectToString(propertyKey, result) ==> r == result
  {
    if result == Func(FunctionPrototypeToString) && propertyKey == ToStringKey
    then CacheGet(cache, wrappedFunction)
    else result
  }

  /** A wrapper built by this file's `wrapWithHook(target, hook, dis)`. */
  ghost predicate Installed(p: Proxy, target: Fn, hook: Fn, dis: Value)
    reads p.handler
  {
    && p.target == target
    && p.handler.apply == Some(ApplyTrap(hook, dis))
    && p.handler.construct == Some(ConstructTrap(p, hook))
    && p.handler.get == Some(GetTrap(target))
  }

  /** The stringifier of `f`: `Function.prototype.toString` wrapped with `f => f()`, with
      `f` forced as `this`. */
  ghost predicate StringifierOf(p: Proxy, f: Fn)
    reads p.handler
  {
    Installed(p, FunctionPrototypeToString, InvokeThunk, Func(f))
  }

  /** Nothing present in `c0` is removed or changed in `c1`. */
  ghost predicate Grows(c0: Cache, c1: Cache)
  {
    forall f :: f in c0 ==> f in c1 && c1[f] == c0[f]
  }

  /** The effect on the cache of making sure `f` has a stringifier: nothing when `f` is
      already a key; otherwise `f` and `Function.prototype.toString` become keys, and
      every key added holds a real wrapper, not the placeholder. */
  ghost predicate CachedFor(c0: Cache, c1: Cache, f: Fn)
  {
    && Grows(c0, c1)
    && c1.Keys == c0.Keys + (if f in c0 then {} else {f, FunctionPrototypeToString})
    && forall g :: g in c1 && g !in c0 ==> c1[g].Some?
  }

  /** No entry holds the placeholder: the state between two top-level calls. */
  ghost predicate Settled(c: Cache)
  {
    forall f :: f in c ==> c[f].Some?
  }

  /** The module state of lib/wrapper.js. */
  class Interceptor {
    var toStringCache: Cache

    constructor ()
      ensures toStringCache == map[]
      ensures Valid() && Settled(toStringCache)
    {
      toStringCache := map[];
    }

    /** The handlers of the wrappers in the cache. */
    ghost function Handlers(): set<Handler>
      reads this
    {
      set f | f in toStringCache && toStringCache[f].Some? :: toStringCache[f].value.handler
    }

    /** Every cached wrapper is the stringifier of its key. */
    ghost predicate Valid()
      reads this, Handlers()
    {
      forall f :: f in toStringCache && toStringCache[f].Some? ==> StringifierOf(toStringCache[f].value, f)
    }

    /** `wrapWithHook(func, hook, dis)`: `func` is checked first, then `hook`, both before the
        cache is touched or a proxy exists; then the stringifier of `func` is cached and a
        fresh proxy with the three traps is returned. */
    method WrapWithHook(func: Value, hook: Value, dis: Value) returns (r: Result<Proxy, Error>)
      requires Valid()
      modifies this
      ensures Valid()
      ensures !IsCallable(func) ==> r == Failure(TypeError(FuncMessage)) && toStringCache == old(toStringCache)
      ensures IsCallable(func) && !IsCallable(hook) ==>
        r == Failure(TypeError(HookMessage)) && toStringCache == old(toStringCache)
      ensures IsCallable(func) && IsCallable(hook) ==>
        && r.Success? && fresh(r.value) && fresh(r.value.handler)
        && Installed(r.value, func.f, hook.f, dis)
        && CachedFor(old(toStringCache), toStringCache, func.f)
      ensures IsCallable(func) && IsCallable(hook) && old(Settled(toStringCache)) ==>
        Settled(toStringCache) && func.f in toStringCache
      decreases (if func.Func? then {func.f} else {}) + {FunctionPrototypeToString} - toStringCache.Keys, 1
    {
      var checked := CheckFunction(func, FuncMessage);
      if checked.Err? {
        return Failure(checked.error);
      }
      checked := CheckFunction(hook, HookMessage);
      if checked.Err? {
        return Failure(checked.error);
      }
      CacheHookedToString(func.f);
      var handler := new Handler();
      var proxy := new Proxy(func.f, handler);
      handler.apply := Some(ApplyTrap(hook.f, dis));
      handler.construct := Some(ConstructTrap(proxy, hook.f));
      handler.get := Some(GetTrap(func.f));
      return Success(proxy);
    }

    /** `cacheHookedToString(func)`: returns at once when `func` is a key; otherwise stores
        the placeholder, so that the nested `wrapWithHook` of toString (which caches a
        stringifier for toString itself) stops, and then the real stringifier. */
    method CacheHookedToString(func: Fn)
      requires Valid()
      modifies this
      ensures Valid()
      ensures CachedFor(old(toStringCache), toStringCache, func)
      decreases {func, FunctionPrototypeToString} - toStringCache.Keys, 0
    {
      if func in toStringCache {
        return;
      }
      ghost var pending := {func, FunctionPrototypeToString} - toStringCache.Keys;
      toStringCache := toStringCache[func := None];
      assert func in pending && func !in {FunctionPrototypeToString} - toStringCache.Keys;
      assert {FunctionPrototypeToString} - toStringCache.Keys < pending;
      var toString := WrapWithHook(Func(FunctionPrototypeToString), Func(InvokeThunk), Func(func));
      toStringCache := toStringCache[func := Some(toString.value)];
    }
  }

  /** Along any history of cache states where each step only grows the cache (as every
      call of `WrapWithHook` does), every later state keeps every earlier entry. */
  lemma {:induction false} HistoryGrows(history: seq<Cache>, i: nat, j: nat)
    requires forall k :: 0 <= k < |history| - 1 ==> Grows(history[k], history[k + 1])
    requires i <= j < |history|
    ensures Grows(history[i], history[j])
  {
    if i < j {
      HistoryGrows(history, i, j - 1);
      assert Grows(history[j - 1], history[j]);
    }
  }

  /** Repeated reads of `toString` through wrappers of the same function, at any two
      moments of such a history, give the identical cached stringifier. */
  lemma ToStringIsStable(history: seq<Cache>, i: nat, j: nat, f: Fn)
    requires forall k :: 0 <= k < |history| - 1 ==> Grows(history[k], history[k + 1])
    requires i <= j < |history|
    requires f in history[i] && history[i][f].Some?
    ensures PropertyAccessTrap(history[j], f, ToStringKey, Func(FunctionPrototypeToString))
         == PropertyAccessTrap(history[i], f, ToStringKey, Func(FunctionPrototypeToString))
         == Func(Wrapper(history[i][f].value))
  {
    HistoryGrows(history, i, j);
  }

  /** Calling the cached stringifier of `f`, with whatever receiver and arguments, calls
      `Function.prototype.toString` with `f` as `this`: it prints `f`'s own source. */
  lemma StringifierPrintsTarget(rt: Runtime, p: Proxy, f: Fn, thisArg: Value, args: seq<Value>)
    requires StringifierOf(p, f)
    ensures Dispatch(p, Call(thisArg, args)).Some?
    ensures InvokeHook(rt, Dispatch(p, Call(thisArg, args)).value).outcome
         == rt.call(FunctionPrototypeToString, Func(f), args)
  {
  }

  /** Between top-level calls, reading `toString` on any wrapper of a function that has
      been wrapped gives a stringifier of that very function, never the placeholder. */
  lemma ToStringReadGivesStringifier(interceptor: Interceptor, f: Fn)
    requires interceptor.Valid() && Settled(interceptor.toStringCache)
    requires f in interceptor.toStringCache
    ensures var v := PropertyAccessTrap(interceptor.toStringCache, f, ToStringKey, Func(FunctionPrototypeToString));
      v.Func? && v.f.Wrapper? && StringifierOf(v.f.proxy, f)
  {
  }

  /** Different cached functions have different stringifiers: two separately built hooks
      (say two results of `buildPrePostHook(a, b)`) are two keys, and wrappers of them
      hand out `toString` functions that are not `===`. */
  lemma StringifiersAreDistinct(interceptor: Interceptor, f: Fn, g: Fn)
    requires interceptor.Valid()
    requires f in interceptor.toStringCache && interceptor.toStringCache[f].Some?
    requires g in interceptor.toStringCache && interceptor.toStringCache[g].Some?
    requires f != g
    ensures interceptor.toStringCache[f].value != interceptor.toStringCache[g].value
  {
  }
}
