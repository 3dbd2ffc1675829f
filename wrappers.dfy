/** Optional values: a Python value that is either a string or None, a key file that may be absent. */
module Wrappers {

  datatype Option<+T> = None | Some(value: T)
}
