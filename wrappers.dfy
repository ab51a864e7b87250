/** The optional value used for every reply an awaited call may fail to deliver. */
module Wrappers {
  datatype Option<+T> = None | Some(value: T)
}
