/** Optional values: a Python `None` or a value that is present. */
module Wrappers {

  datatype Option<+T> = None | Some(value: T)
}
