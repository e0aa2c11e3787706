/** Optional values: a dictionary lookup that may miss, an attribute that may be absent,
    an external call that may fail. */
module Wrappers {

  datatype Option<+T> = None | Some(value: T)
}
