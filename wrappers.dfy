/** An optional value: Python's "value or nothing" (a missing key, a failed lookup). */
module Wrappers {

  datatype Option<T> = None | Some(value: T)
}
