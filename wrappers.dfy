/**
 * Optional values, results with an error side, and Python's truthiness of an
 * optional string (None and "" are both false).
 */
module Wrappers {

  datatype Option<+T> = None | Some(value: T)

  datatype Result<+R, +E> = Success(value: R) | Failure(error: E)

  /** `bool(x)` in Python for an `Optional[str]`: false for None and for "". */
  predicate Truthy(s: Option<string>) {
    s.Some? && s.value != ""
  }

  /** `str(x)` in Python for an `Optional[str]` (as used by an f-string). */
  function PyStr(s: Option<string>): string {
    if s.Some? then s.value else "None"
  }
}
