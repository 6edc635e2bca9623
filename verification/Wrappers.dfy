/** The stock optional value used for Python's `None`-able fields and results. */
module Wrappers {
  datatype Option<+T> = None | Some(value: T)

  type byte = x: int | 0 <= x < 256
}
