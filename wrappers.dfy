/** A value that may be absent: a missing map entry, or a handler that does not reply. */
module Wrappers {
  datatype Option<+T> = None | Some(value: T)
}
