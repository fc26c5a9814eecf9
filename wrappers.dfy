/** Optional values: the Python client's `None`, a missing dictionary key, or an
    index that does not exist. */
module Wrappers {

  datatype Option<+T> = None | Some(value: T)

}
