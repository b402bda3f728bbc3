/** The optional value used by lookups and by reading a display back. */
module Wrappers {
  datatype Option<T> = None | Some(value: T)
}
