/** Failure-compatible results shared by the models. */
module Wrappers {

  datatype Option<+T> = None | Some(value: T) {
    predicate IsFailure() { None? }

    function PropagateFailure<U>(): Option<U>
      requires None?
    {
      None
    }

    function Extract(): T
      requires Some?
    {
      value
    }
  }

  /** A value, or the code of the error that the source throws. */
  datatype Outcome<+T> = Ok(value: T) | Fail(code: string) {
    predicate IsFailure() { Fail? }

    function PropagateFailure<U>(): Outcome<U>
      requires Fail?
    {
      Fail(code)
    }

    function Extract(): T
      requires Ok?
    {
      value
    }
  }

  /** The result of a guard of the source, `if (!condition) fail(code)`. */
  datatype Check = Pass | Reject(code: string) {
    predicate IsFailure() { Reject? }

    function PropagateFailure<U>(): Outcome<U>
      requires Reject?
    {
      Fail(code)
    }
  }

  function Need(condition: bool, code: string): Check {
    if condition then Pass else Reject(code)
  }
}
