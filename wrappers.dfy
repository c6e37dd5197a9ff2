/** Optional values, standing for Python's `Optional[...]` arguments whose default is `None`. */
module Wrappers {

  datatype Option<+T> = None | Some(value: T)
}
