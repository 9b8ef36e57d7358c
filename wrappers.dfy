/** Option and Result values shared by every module of the model. */
module Wrappers {

  /** A Kotlin nullable value (`T?`) or a Python value that may be `None`. */
  datatype Option<+T> = None | Some(value: T)

  /** The outcome of an operation that may throw: `Ok` for a returned value, `Err` for a raised exception. */
  datatype Result<+T, +E> = Ok(value: T) | Err(error: E)

  /** Kotlin's elvis operator `x ?: d`; in Python, the default of `d.get(k, dflt)` or `os.getenv(name, dflt)` for an absent entry. */
  function OrElse<T>(o: Option<T>, d: T): T
  {
    match o
    case Some(v) => v
    case None => d
  }
}
