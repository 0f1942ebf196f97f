/** Python exceptions that the modelled code can raise, and a Result type
    that carries either a value or one of them. */
module Errors {

  /** The exception classes the modelled code can raise. */
  datatype Error =
    | ValueError(text: string)     // int() of a malformed literal, or astype(int) of a NaN
    | KeyError(column: string)     // a column the frame does not have
    | TypeError(column: string)    // a column whose values cannot be ordered together
    | OverflowError                // a timedelta outside Python's day range

  datatype Result<+T> = Ok(value: T) | Err(error: Error) {

    predicate IsFailure() {
      Err?
    }

    function PropagateFailure<U>(): Result<U>
      requires Err?
    {
      Err(error)
    }

    function Extract(): T
      requires Ok?
    {
      value
    }
  }
}
