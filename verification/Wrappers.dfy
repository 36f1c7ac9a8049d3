/** A value that may be absent: a null pointer, a failed search, no error. */
module Wrappers {

  datatype Option<T> = None | Some(value: T)
}
