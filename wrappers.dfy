/** A value that may be absent: a failed parse, or a null C string. */
module Wrappers {
  datatype Option<T> = None | Some(value: T)
}
