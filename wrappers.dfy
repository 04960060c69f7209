/** The optional value used for every JavaScript field that may be `undefined` or `null`. */
module Wrappers {
  datatype Option<+T> = None | Some(value: T)
}
