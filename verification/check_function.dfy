/** lib/checkFunction.js (and the identical helper at the end of index.js). */
module Callability {
  import opened Js

  /** `typeof v === 'function'`. */
  predicate IsCallable(v: Value)
  {
    v.Func?
  }

  /** Returns normally when `v` is callable, throws `TypeError(errorMessage)` otherwise. */
  function CheckFunction(v: Value, errorMessage: string): (r: Outcome)
    ensures r.Ok? <==> IsCallable(v)
    ensures r.Ok? ==> r.value == Undefined
    ensures !IsCallable(v) ==> r == Err(TypeError(errorMessage))
  {
    if !v.Func? then Err(TypeError(errorMessage)) else Ok(Undefined)
  }

  /** Only callability is tested: every kind of function passes, whether or not it
      can be used with `new` (arrows, generators, bound functions, classes). */
  lemma EveryFunctionKindPasses(id: nat, kind: FnKind, errorMessage: string)
    ensures CheckFunction(Func(Native(id, kind)), errorMessage) == Ok(Undefined)
  {
  }
}
