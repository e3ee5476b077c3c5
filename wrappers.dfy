/** The optional value used wherever the tracker keeps "a record or nothing". */
module Wrappers {
  datatype Option<+T> = None | Some(value: T)
}
