/** Values of the Python runtime that the modelled code observes: `None`, and the
    exceptions that end a call early. */
module Python {

  /** A value that may be Python's `None`. */
  datatype Option<T> = None | Some(value: T)

  /** The built-in exceptions the modelled code can raise. */
  datatype PyError =
    | IndexError   // a list index out of range
    | TypeError    // an operation applied to the wrong kind of value (e.g. `None + 1`)
    | ValueError   // tuple unpacking of the wrong number of values
    | KeyError     // a dictionary lookup of a missing key

  /** What a call that may raise produces. */
  datatype Result<T> = Ok(value: T) | Err(error: PyError)
}
