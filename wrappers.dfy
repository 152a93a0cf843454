/** The optional value used for "no match" and "no bound yet". */
module Wrappers {
  datatype Option<+T> = None | Some(value: T)
}
