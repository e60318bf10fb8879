/** Option type for lookups that may find nothing and for Python's `None`
    return value. */
module Wrappers {

  datatype Option<+T> = None | Some(value: T)
}
