/** Optional values, used for the thread id, the remote results and the
    optional fields of a message record. */
module Wrappers {

  datatype Option<+T> = None | Some(value: T)
}
