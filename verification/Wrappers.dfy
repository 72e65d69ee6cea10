/** A value that may be missing: a failed read, a null pointer. */
module Wrappers {
  datatype Option<T> = None | Some(value: T)
}
