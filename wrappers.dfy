/** The optional value used wherever Python code returns `None` or raises for a
    missing or malformed input. */
module Wrappers {
  datatype Option<T> = None | Some(value: T)
}
