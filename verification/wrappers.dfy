/** An optional value, used where the source yields `undefined` or a value. */
module Wrappers {
  datatype Option<+T> = None | Some(value: T)
}
