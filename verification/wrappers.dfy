/** Small failure-carrying datatypes shared by the rest of the model. */
module Wrappers {

  /** A value that may be missing: a Python `None` or an absent dictionary key. */
  datatype Option<+T> = None | Some(value: T) {

    /** The value, or `default` when missing (Python's `d.get(key, default)`). */
    function GetOr(default: T): T {
      match this
      case Some(v) => v
      case None => default
    }
  }

  /** Python truthiness of an optional string: present and not empty. */
  predicate Truthy(s: Option<string>) {
    s.Some? && s.value != ""
  }

  /** The outcome of an operation that may raise: its value or the raised error. */
  datatype Result<+R, +E> = Ok(value: R) | Err(error: E)
}
