/** Failure-compatible wrappers shared by every module, and the Python
    exceptions the modelled code can raise. */
module Common {

  datatype Option<+T> = None | Some(value: T)

  datatype Result<+T, +E> = Ok(value: T) | Err(error: E) {
    predicate IsFailure() { Err? }

    function PropagateFailure<U>(): Result<U, E>
      requires Err?
    {
      Err(error)
    }

    function Extract(): T
      requires Ok?
    {
      value
    }
  }

  /** The Python exceptions that the modelled code raises or lets escape. */
  datatype PyError =
    | ValueError(message: string)
    | KeyError(key: string)
    | TypeError
    | AttributeError(name: string)
    | FileNotFound(path: string)
    | YamlError(path: string)
}
