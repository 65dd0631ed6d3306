/** Option, used for a pointer that may be null and for a codec read that may fail. */
module Wrappers {
  datatype Option<+T> = None | Some(value: T)
}
