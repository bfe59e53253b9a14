/** Option, used where the script returns `undefined`, `null` or a failure flag. */
module Wrappers {
  datatype Option<+T> = None | Some(value: T)
}
