/** Optional values and outcomes of external calls, shared by the other modules. */
module Wrappers {

  /** A value that may be absent (JavaScript's `undefined` / `null`). */
  datatype Option<+T> = None | Some(value: T)

  /** The outcome of an asynchronous call: resolved with a value or rejected with an error. */
  datatype Result<+T, +E> = Ok(value: T) | Err(error: E)

  /** A rejected HTTP request as the screens see it: `e.response.data.detail`, when the server sent one. */
  datatype HttpFailure = HttpFailure(status: Option<int>, detail: Option<string>)
}
