/** Option and Result values, and the Python exception kinds the adapter raises or lets through. */
module Wrappers {

  datatype Option<+T> = None | Some(value: T)

  /** The exceptions that reach the caller of the adapter. */
  datatype Error =
    | ValueError           // unexpected term, open after use, unexpected query result, quoted add
    | TypeError            // a term of the wrong kind in a backend position
    | NotImplementedError  // query/update features the adapter refuses
    | EngineError          // anything the backend engine itself raises (syntax errors, I/O)

  datatype Result<+T> = Ok(value: T) | Err(error: Error) {
    predicate IsFailure() { Err? }
    function PropagateFailure<U>(): Result<U>
      requires Err?
    {
      Err(error)
    }
    function Extract(): T
      requires Ok?
    {
      value
    }
  }

  /** The outcome of a Python call that returns None or raises. */
  datatype Outcome = Pass | Fail(error: Error)
}
