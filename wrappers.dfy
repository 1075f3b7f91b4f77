/** Failure-carrying values shared by every module: Python's `None`/value pairs
    become `Option`, and a call that may raise becomes a `Result` whose failure
    side records the exception class and its message. */
module Wrappers {

  datatype Option<T> = None | Some(value: T)

  /** The Python exception classes the modelled code raises or catches. */
  datatype ErrorKind =
    | ValueError
    | KeyError
    | TypeError
    | AttributeError
    | IndexError
    | FileNotFoundError
    | RuntimeError
    | ZeroDivisionError
    | GenericException   // a bare `Exception(...)`

  /** An exception: its class and `str(e)`. */
  datatype Error = Error(kind: ErrorKind, message: string)

  datatype Result<T> = Ok(value: T) | Err(error: Error)
  {
    /** Lets `var x :- r;` stop at the first exception, as Python does. */
    predicate IsFailure() { Err? }

    function PropagateFailure<U>(): Result<U>
      requires Err?
    {
      Err(error)
    }

    function Extract(): T
      requires Ok?
    {
      value
    }
  }
}
