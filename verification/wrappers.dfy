/** An optional value, used for Python's `None` defaults. */
module Wrappers {
  datatype Option<+T> = None | Some(value: T)
}
