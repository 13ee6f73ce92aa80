/** Small shared vocabulary: optional values, results, and the Python
    exceptions that the modelled code can raise. */
module Basics {

  datatype Option<T> = None | Some(value: T) {
    /** Python's `dict.get(key, default)`: the stored value, or the default. */
    function GetOr(default: T): T {
      match this
      case Some(v) => v
      case None => default
    }
  }

  datatype Result<T, E> = Success(value: T) | Failure(error: E)

  /** The exceptions the modelled code raises or lets through. */
  datatype Error =
    | NameError(name: string)        // an undefined name is evaluated
    | AttributeError(name: string)   // a method the object does not have is called
    | EngineError(description: string) // the text-generation engine failed
}
