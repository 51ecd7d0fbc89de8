/** Shared option type. */
module Basics {
  datatype Option<+T> = None | Some(value: T)
}
