/** Optional values: a dictionary lookup with `.get()` that finds nothing, or a
    field that holds Python's `None`. */
module Wrappers {

  datatype Option<+T> = None | Some(value: T)
}
