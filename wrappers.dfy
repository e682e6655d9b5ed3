/** Optional values: `None` stands for JavaScript's `null`/`undefined`. */
module Wrappers {
  datatype Option<T> = None | Some(value: T)
  {
    /** The value, or `default` when absent (JavaScript's `x ?? default`). */
    function GetOr(default: T): (r: T)
      ensures this.Some? ==> r == this.value
      ensures this.None? ==> r == default
    {
      match this
      case None => default
      case Some(v) => v
    }
  }

  /** The outcome of an operation that throws: its value, or the thrown error's message. */
  datatype Result<T> = Success(value: T) | Failure(error: string)
}
