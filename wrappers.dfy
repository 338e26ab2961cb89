/** The optional result used where the source returns `Option<T>`. */
module Wrappers {
  datatype Option<+T> = None | Some(value: T)
}
