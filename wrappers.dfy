/** The usual optional value: `None` where the source raises or finds nothing. */
module Wrappers {
  datatype Option<+T> = None | Some(value: T)
}
