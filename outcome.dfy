/** The exceptions the harness code can raise, and a result type that carries
    either a value or the exception raised instead. */
module Outcome {

  datatype PyException =
    | AttributeError  // a method looked up on a value that lacks it (`.items()`, `.get()`)
    | KeyError        // a missing key read with `d[k]`
    | AssertionError  // a failed comparison in the harness
    | ValueError      // an unknown fixture layer

  datatype Result<+T> = Ok(value: T) | Raise(exc: PyException)

  datatype Option<+T> = None | Some(value: T)
}
