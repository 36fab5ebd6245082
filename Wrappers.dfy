/** The optional value used for Python's `None` and for partial operations. */
module Wrappers {

  datatype Option<+T> = None | Some(value: T)

}
