/** Optional values and outcomes of code that may raise an exception. */
module Options {

  datatype Option<+T> = None | Some(value: T) {
    /** Python's dict.get(key, default) once the key lookup has happened. */
    function GetOr(default: T): T {
      match this
      case Some(v) => v
      case None => default
    }
  }

  /** The outcome of Python code that either returns a value or raises;
      the exception is kept as its message, str(e). */
  datatype Fallible<+T> = Returned(value: T) | Raised(error: string)
}
