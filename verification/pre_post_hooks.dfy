/** lib/prePostHooks.js: building a hook that brackets one invocation of a thunk
    between a pre-hook and a post-hook.  The try/finally core, `Bracket`, is shared
    with the older copy of the composer in index.js. */
module PrePostHooks {
  import opened Js
  import opened Callability

  const PreHookMessage := "Pre-hook must be a function"
  const PostHookMessage := "Post-hook must be a function"

  /** What the composed hook calls, in order. */
  datatype Event = PreHookCalled(args: seq<Value>) | ThunkCalled | PostHookCalled(args: seq<Value>)

  /** The calls a hook made and how it ended. */
  datatype Run = Run(trace: seq<Event>, outcome: Outcome)

  /** `try { <tried> } finally { postHook(...args) }`: the post-hook runs after whatever
      was tried; if it throws, its error replaces the pending result or error. */
  function Finally(tried: Run, postArgs: seq<Value>, post: Outcome): Run
  {
    Run(tried.trace + [PostHookCalled(postArgs)], if post.Err? then post else tried.outcome)
  }

  /** What a composed hook promises about one invocation, given the outcome each of its
      three calls would have: a throwing pre-hook ends it at once with that error;
      otherwise the pre-hook, the thunk and the post-hook are called in that order, both
      hooks with `hookArgs`, and the outcome is the post-hook's error if it throws, the
      thunk's own outcome otherwise. */
  ghost predicate Brackets(r: Run, hookArgs: seq<Value>, pre: Outcome, body: Outcome, post: Outcome)
  {
    && (pre.Err? ==> r == Run([PreHookCalled(hookArgs)], pre))
    && (pre.Ok? ==> r.trace == [PreHookCalled(hookArgs), ThunkCalled, PostHookCalled(hookArgs)])
    && (pre.Ok? && post.Ok? ==> r.outcome == body)
    && (pre.Ok? && post.Err? ==> r.outcome == post)
  }

  /** `preHook(...args); try { return func() } finally { postHook(...args) }`, given the
      outcome each of the three calls would have. */
  function Bracket(hookArgs: seq<Value>, pre: Outcome, body: Outcome, post: Outcome): (r: Run)
    ensures Brackets(r, hookArgs, pre, body, post)
  {
    match pre
    case Err(_) => Run([PreHookCalled(hookArgs)], pre)
    case Ok(_) => Finally(Run([PreHookCalled(hookArgs), ThunkCalled], body), hookArgs, post)
  }

  /** `buildPrePostHook(preHook, postHook)`: both must be functions, the pre-hook is checked
      first. Each call evaluates the function expression `hook` anew, so the result is a
      new function object: `closure` is the identity the runtime gives it, and results
      of calls with different identities are different functions (and different keys of
      the toString cache of lib/wrapper.js) even when they close over the same hooks. */
  function BuildPrePostHook(preHook: Value, postHook: Value, closure: nat): (r: Result<Fn, Error>)
    ensures !IsCallable(preHook) ==> r == Failure(TypeError(PreHookMessage))
    ensures IsCallable(preHook) && !IsCallable(postHook) ==> r == Failure(TypeError(PostHookMessage))
    ensures r.Success? <==> IsCallable(preHook) && IsCallable(postHook)
    ensures r.Success? ==> r.value == LibPrePostHook(closure, preHook.f, postHook.f)
  {
    var preChecked := CheckFunction(preHook, PreHookMessage);
    if preChecked.Err? then Failure(preChecked.error)
    else
      var postChecked := CheckFunction(postHook, PostHookMessage);
      if postChecked.Err? then Failure(postChecked.error)
      else Success(LibPrePostHook(closure, preHook.f, postHook.f))
  }

  /** The returned `hook(func, metadata)`: the pre-hook, `func` and the post-hook are
      bracketed as `Brackets` says, both hooks receiving the same `metadata`. */
  function Hook(rt: Runtime, preHook: Fn, postHook: Fn, func: Thunk, metadata: Value): (r: Run)
    ensures Brackets(r, [metadata], CallPlain(rt, preHook, [metadata]), RunThunk(rt, func),
                     CallPlain(rt, postHook, [metadata]))
  {
    Bracket([metadata], CallPlain(rt, preHook, [metadata]), RunThunk(rt, func), CallPlain(rt, postHook, [metadata]))
  }

  /** How many times `e` occurs in a trace. */
  function Count(trace: seq<Event>, e: Event): (n: nat)
    ensures n <= |trace|
    ensures n == 0 <==> e !in trace
  {
    if trace == [] then 0 else (if trace[0] == e then 1 else 0) + Count(trace[1..], e)
  }

  /** A throwing pre-hook aborts: its error propagates and neither the thunk nor the
      post-hook is called. */
  lemma PreHookFailureAborts(hookArgs: seq<Value>, pre: Outcome, body: Outcome, post: Outcome)
    requires pre.Err?
    ensures Bracket(hookArgs, pre, body, post) == Run([PreHookCalled(hookArgs)], pre)
    ensures ThunkCalled !in Bracket(hookArgs, pre, body, post).trace
    ensures forall a :: PostHookCalled(a) !in Bracket(hookArgs, pre, body, post).trace
  {
  }

  /** After the pre-hook returns, the calls are exactly pre-hook, thunk, post-hook, and
      both hooks are handed the same arguments, whatever the thunk or post-hook do. */
  lemma NormalTrace(hookArgs: seq<Value>, pre: Outcome, body: Outcome, post: Outcome)
    requires pre.Ok?
    ensures Bracket(hookArgs, pre, body, post).trace
         == [PreHookCalled(hookArgs), ThunkCalled, PostHookCalled(hookArgs)]
  {
  }

  /** Each of the three calls happens exactly once once the pre-hook has returned:
      the thunk is not retried and the post-hook is not skipped, even when one throws. */
  lemma {:induction false} EachCalledOnce(hookArgs: seq<Value>, pre: Outcome, body: Outcome, post: Outcome)
    requires pre.Ok?
    ensures var t := Bracket(hookArgs, pre, body, post).trace;
      Count(t, PreHookCalled(hookArgs)) == 1 && Count(t, ThunkCalled) == 1 && Count(t, PostHookCalled(hookArgs)) == 1
  {
    var t := Bracket(hookArgs, pre, body, post).trace;
    NormalTrace(hookArgs, pre, body, post);
    assert t[1..] == [ThunkCalled, PostHookCalled(hookArgs)];
    assert t[1..][1..] == [PostHookCalled(hookArgs)];
  }

  /** If neither the thunk nor the post-hook throws, the thunk's result is returned unchanged. */
  lemma ResultPreserved(hookArgs: seq<Value>, pre: Outcome, v: Value, post: Outcome)
    requires pre.Ok? && post.Ok?
    ensures Bracket(hookArgs, pre, Ok(v), post).outcome == Ok(v)
  {
  }

  /** If the thunk throws and the post-hook does not, the thunk's error propagates. */
  lemma ThunkErrorPropagates(hookArgs: seq<Value>, pre: Outcome, e: Error, post: Outcome)
    requires pre.Ok? && post.Ok?
    ensures Bracket(hookArgs, pre, Err(e), post).outcome == Err(e)
  {
  }

  /** A throwing post-hook wins, whatever the thunk did (finally-override). */
  lemma PostHookErrorOverrides(hookArgs: seq<Value>, pre: Outcome, body: Outcome, e: Error)
    requires pre.Ok?
    ensures Bracket(hookArgs, pre, body, Err(e)).outcome == Err(e)
  {
  }
}
