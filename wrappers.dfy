/** A value that may be absent: a storage slot with no entry, a user who is not logged in. */
module Wrappers {
  datatype Option<+T> = None | Some(value: T)
}
