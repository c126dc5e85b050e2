/** The optional value used for Python's `None` and for absent session keys. */
module Wrappers {

  datatype Option<+T> = None | Some(value: T)
}
