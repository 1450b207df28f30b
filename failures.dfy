/** Python's exceptions, as values.
    An operation of the library that may raise returns a `Result`: `Ok` with its
    value, or `Raise` with the kind of exception the Python code would raise. */
module Failures {

  /** The exception classes the modelled code raises or lets through. */
  datatype Exception =
    | ValueError      // unparseable colour, malformed config line, bad catalog, orphan background slot
    | KeyError        // empty nearest-colour index, unknown palette or renderer name
    | TypeError       // a value of the wrong Python type (an int compared with a str, a tuple indexed by a str)
    | AttributeError  // a theme style that the theme does not define

  datatype Result<+T> = Ok(value: T) | Raise(exc: Exception)
  {
    predicate IsFailure() { Raise? }

    function PropagateFailure<U>(): Result<U>
      requires Raise?
    {
      Raise(exc)
    }

    function Extract(): T
      requires Ok?
    {
      value
    }
  }

  datatype Option<+T> = None | Some(value: T)
}
