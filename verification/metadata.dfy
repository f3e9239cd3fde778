/** lib/metadata.js: the invocation metadata record, whose constructor validates its
    arguments (function, then arguments array, then optional constructor) and then
    assigns exactly three fields. */
module Metadata {
  import opened Js
  import opened Callability

  const FunctionMessage := "function object expected"
  const ArgumentsMessage := "arguments array expected"
  const ConstructorMessage := "function constructor expected"

  /** `Array.isArray(v)`. */
  predicate IsArray(v: Value)
  {
    v.Object? && v.isArray
  }

  /** The three checks of the constructor, in order; the first that fails decides the error. */
  function Validate(func: Value, args: Value, ctor: Value): (r: Outcome)
    ensures r.Ok? <==> IsCallable(func) && IsArray(args) && (ctor == Undefined || IsCallable(ctor))
    ensures r.Ok? ==> r.value == Undefined
    ensures !IsCallable(func) ==> r == Err(TypeError(FunctionMessage))
    ensures IsCallable(func) && !IsArray(args) ==> r == Err(TypeError(ArgumentsMessage))
    ensures IsCallable(func) && IsArray(args) && ctor != Undefined && !IsCallable(ctor) ==>
      r == Err(TypeError(ConstructorMessage))
  {
    var funcChecked := CheckFunction(func, FunctionMessage);
    if funcChecked.Err? then funcChecked
    else if !IsArray(args) then Err(TypeError(ArgumentsMessage))
    else if ctor != Undefined then CheckFunction(ctor, ConstructorMessage)
    else Ok(Undefined)
  }

  class InvocationData {
    var func: Value        // `this.function`: the original function
    var arguments: Value   // `this.arguments`
    var ctor: Value        // `this.constructor`: undefined outside constructor calls

    /** The fields hold inputs the constructor's checks accept. */
    ghost predicate Valid()
      reads this
    {
      Validate(func, arguments, ctor).Ok?
    }

    /** The field assignments, once the checks have passed. */
    constructor Assign(func: Value, args: Value, ctor: Value)
      ensures this.func == func && this.arguments == args && this.ctor == ctor
    {
      this.func := func;
      this.arguments := args;
      this.ctor := ctor;
    }

    /** `new InvocationData(func, args, ctor)`: throws the first failing check's `TypeError`
        before any object exists; otherwise a fresh record holding exactly the inputs. */
    static method New(func: Value, args: Value, ctor: Value) returns (r: Result<InvocationData, Error>)
      ensures Validate(func, args, ctor).Err? ==> r == Failure(Validate(func, args, ctor).error)
      ensures Validate(func, args, ctor).Ok? ==>
        && r.Success? && fresh(r.value) && r.value.Valid()
        && r.value.func == func && r.value.arguments == args && r.value.ctor == ctor
    {
      var checked := Validate(func, args, ctor);
      if checked.Err? {
        return Failure(checked.error);
      }
      var data := new InvocationData.Assign(func, args, ctor);
      return Success(data);
    }
  }
}
