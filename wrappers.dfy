/** The optional value used for a date input that may not parse and for `?.` lookups. */
module Wrappers {
  datatype Option<+T> = None | Some(value: T)
}
