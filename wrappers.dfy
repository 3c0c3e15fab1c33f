/** The optional value used for request fields, lookups and the session slot. */
module Wrappers {
  datatype Option<+T> = None | Some(value: T)
}
