/** The optional value used for table lookups that can miss. */
module Wrappers {
  datatype Option<T> = None | Some(value: T)
}
