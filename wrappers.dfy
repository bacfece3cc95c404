/** Python's `None`-or-value, for the Symbol fields that start out as `None`. */
module Wrappers {

  datatype Option<+T> = None | Some(value: T)
}
