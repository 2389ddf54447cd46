/** The optional value used wherever the source may answer `undefined`. */
module Wrappers {
  datatype Option<+T> = None | Some(value: T)
}
