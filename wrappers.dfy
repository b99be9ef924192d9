/** Failure-compatible result types shared by every module of the model.
    Python exceptions of the original program become `Error` values. */
module Wrappers {

  datatype Option<+T> = None | Some(value: T)

  /** A Python `bytes` element. */
  newtype byte = x: int | 0 <= x < 256

  /** The exceptions the modelled code can raise. */
  datatype Error =
    | KeyError(key: string)          // a missing dictionary key
    | ZeroDivisionError              // `//` or `/` by zero
    | StructError                    // struct.pack of a value that does not fit
    | RaisedError(message: string)   // an explicit `raise BaseException(...)`

  datatype Result<+T> = Ok(value: T) | Fail(error: Error) {
    predicate IsFailure() { Fail? }

    function PropagateFailure<U>(): Result<U>
      requires Fail?
    {
      Fail(error)
    }

    function Extract(): T
      requires Ok?
    {
      value
    }
  }

  /** The result of an operation that returns nothing but may raise. */
  datatype Outcome = Done | Raised(error: Error)
}
