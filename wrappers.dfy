/** Python's `None` for an optional attribute of a remote object. */
module Wrappers {

  datatype Option<+T> = None | Some(value: T)

}
