/** The `Option` wrapper used for partial results and nullable values. */
module Wrappers {
  datatype Option<T> = None | Some(value: T)
}
