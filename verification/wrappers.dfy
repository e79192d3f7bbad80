/** Option and Result, the failure-compatible wrappers the rest of the model uses. */
module Wrappers {

  /** A value that may be absent: `FirstOrDefault` on a sequence of references. */
  datatype Option<+T> = None | Some(value: T)

  /** The outcome of an operation that can throw: either its value or the exception. */
  datatype Result<+R, +E> = Ok(value: R) | Err(error: E)

  /** The exceptions the dispatcher can raise. */
  datatype Failure =
    /** `Unbind` on a component constructed without unbinding support. */
    | NotSupported
    /** `MethodInfo.Invoke` given event arguments its second parameter does not accept. */
    | ArgumentMismatch(methodName: string)
    /** `MethodInfo.Invoke` on a method that is not a routing routine. */
    | NotARoutine(methodName: string)
}
