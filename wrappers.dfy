/** Optional values and service outcomes, used in place of C#'s `null`
    results and thrown exceptions. */
module Wrappers {

  /** An optional value: `None` plays the part of a C# `null`. */
  datatype Option<+T> = None | Some(value: T)

  /** The outcome of a service call: a value, or the typed failure the
      service would have thrown. */
  datatype Result<+T, +E> = Ok(value: T) | Err(error: E)
}
