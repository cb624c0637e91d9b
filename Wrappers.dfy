/** The optional value used where the source returns Python's None or searches may fail. */
module Wrappers {

  datatype Option<+T> = None | Some(value: T)
}
