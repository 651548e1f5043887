/**
 * mlgame/utils/delegate.py: a function slot that is set once and then
 * forwards every call to its target.
 */
module Delegate {
  import opened Wrappers
  import opened Exceptions

  /** What `set_function` is handed: a callable, given as the function it computes, or anything else. */
  datatype Callee<-A, R> = NotCallable | Callable(f: A -> R)

  /** `FunctionDelegate`: `target` is `_target_function`, None until set. */
  class FunctionDelegate<A, R> {
    var target: Option<A -> R>

    constructor()
      ensures target == None
    {
      target := None;
    }

    /**
     * `set_function`: a second call is refused and keeps the first target;
     * so is a non-callable argument.
     */
    method SetFunction(func: Callee<A, R>) returns (o: Outcome<PyException>)
      modifies this
      ensures old(target).Some? ==>
        o == Fail(ValueError("The target function has been already set.")) && target == old(target)
      ensures old(target).None? && func.NotCallable? ==>
        o == Fail(ValueError("The specified 'func' is not callable.")) && target == None
      ensures old(target).None? && func.Callable? ==> o == Pass && target == Some(func.f)
    {
      if target.Some? {
        return Fail(ValueError("The target function has been already set."));
      }
      if func.NotCallable? {
        return Fail(ValueError("The specified 'func' is not callable."));
      }
      target := Some(func.f);
      o := Pass;
    }

    /** `__call__`: RuntimeError while unset, otherwise the target's result on the same arguments. */
    method Call(args: A) returns (r: Result<R, PyException>)
      ensures target.None? ==> r == Failure(RuntimeError("The target function is not specified."))
      ensures target.Some? ==> r == Success(target.value(args))
    {
      if target.None? {
        return Failure(RuntimeError("The target function is not specified."));
      }
      r := Success(target.value(args));
    }
  }
}
