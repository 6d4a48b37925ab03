/** Failure-carrying values shared by every module of the model.
    Python raises exceptions; the model returns them as the `Err` case of a `Result`. */
module Wrappers {

  datatype Option<+T> = None | Some(value: T)

  /** The three kinds of exception the modelled code can raise, each with its message. */
  datatype PyError =
    | ValueError(message: string)
    | TypeError(message: string)
    | OverflowError(message: string)

  datatype Result<+T> = Ok(value: T) | Err(error: PyError) {
    predicate IsFailure() { Err? }

    function PropagateFailure<U>(): Result<U>
      requires Err?
    {
      Err(error)
    }

    function Extract(): T
      requires Ok?
    {
      value
    }
  }
}
