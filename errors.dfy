/** How a step of the worker ends when it does not return normally. */
module Errors {

  /** `PRHandlerException` is caught by the worker loop; anything else (IndexError,
      a GitHub or filesystem error, a NameError) escapes it and ends the worker thread. */
  datatype Failure = HandlerError(message: string) | Crash(message: string)

  datatype Result<+T> = Ok(value: T) | Err(failure: Failure) {
    predicate IsFailure() { Err? }
    function PropagateFailure<U>(): Result<U>
      requires Err?
    {
      Err(failure)
    }
    function Extract(): T
      requires Ok?
    {
      value
    }
  }
}
