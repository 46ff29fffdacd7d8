/** Optional values: Python's `None` sentinel and the outcome of an I/O call that may raise. */
module Wrappers {

  datatype Option<+T> = None | Some(value: T)
}
