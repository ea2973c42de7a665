/** Option and Result, and the kinds of Java exception the library throws. */
module Wrappers {

  datatype Option<+T> = None | Some(value: T)

  /** The exception a Java call ends with. */
  datatype Error =
    | Invalid(message: string)      // IllegalArgumentException thrown on purpose
    | Unsupported(message: string)  // UnsupportedOperationException
    | Crash(message: string)        // NullPointerException, ArrayIndexOutOfBounds, ClassCastException

  datatype Result<+T> = Ok(value: T) | Err(error: Error) {
    predicate IsFailure() { Err? }
    function PropagateFailure<U>(): Result<U>
      requires Err?
    {
      Err(error)
    }
    function Extract(): T
      requires Ok?
    {
      value
    }
  }

  /** The outcome of a `void` Java method: it returns, or it throws. */
  datatype Outcome = Done | Threw(error: Error) {
    predicate IsFailure() { Threw? }
    function PropagateFailure<U>(): Result<U>
      requires Threw?
    {
      Err(error)
    }
  }
}
