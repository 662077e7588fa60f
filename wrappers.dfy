/** Python's `None`-or-value fields, as an Option. */
module Wrappers {

  datatype Option<+T> = None | Some(value: T)
}
