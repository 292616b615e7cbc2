/** An optional value, for properties that may be absent and for partial inverses. */
module Wrappers {
  datatype Option<T> = None | Some(value: T)
}
