/** An optional value, for Python's `None` and for the outcome of parsing. */
module Wrappers {

  datatype Option<+T> = None | Some(value: T)
}
