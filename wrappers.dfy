/** Option type used where the source returns `None` or has no value. */
module Wrappers {
  datatype Option<+T> = None | Some(value: T)
}
