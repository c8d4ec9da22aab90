/** The optional value used for timestamps that may be absent. */
module Wrappers {
  datatype Option<+T> = None | Some(value: T)
}
