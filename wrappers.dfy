/** Failure-carrying datatypes shared by every resource module. */
module Wrappers {

  datatype Option<T> = None | Some(value: T)

  datatype Result<T, E> = Ok(value: T) | Err(error: E)

  /** The result of an API call whose answer the handler does not use. */
  datatype CallStatus = Succeeded | Failed(message: string)

  /** What a lifecycle handler hands back to the plugin SDK: no diagnostics,
      an error diagnostic, or a Go run-time panic (an index out of range). */
  datatype Outcome = Pass | Fail(message: string) | Panic(message: string)
}
