/** The Option and Result wrappers used across the model. */
module Wrappers {

  /** A value that may be absent (Python's `Optional[...]`, with `None` as the absent case). */
  datatype Option<+T> = None | Some(value: T)

  /** A value or the exception that replaced it. */
  datatype Result<+T, +E> = Ok(value: T) | Err(error: E)

  /** Text rendering of an optional string as a Python f-string shows it: `None` prints as "None". */
  function OrNone(o: Option<string>): string
  {
    match o
    case Some(s) => s
    case None => "None"
  }

  /** Python truthiness of an optional string: absent or empty is false. */
  predicate Truthy(o: Option<string>)
  {
    o.Some? && o.value != ""
  }
}
