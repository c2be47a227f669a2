/** The optional value used for Go's nil-able results: `None` is `nil`. */
module Wrappers {
  datatype Option<+T> = None | Some(value: T)
}
