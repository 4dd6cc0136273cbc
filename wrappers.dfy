/** Optional values, standing for Python's `None` and for a lookup that has no answer. */
module Wrappers {

  datatype Option<+T> = None | Some(value: T)
}
