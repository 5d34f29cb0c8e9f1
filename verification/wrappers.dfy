/** Optional values and success/failure results, standing in for Python's None and exceptions. */
module Wrappers {

  datatype Option<+T> = None | Some(value: T)

  /** Python's `s or ""` on an optional string: None (and "") give "". */
  function OrEmpty(s: Option<string>): string {
    if s.Some? then s.value else ""
  }

  datatype Result<+T, +E> = Ok(value: T) | Err(error: E)
}
