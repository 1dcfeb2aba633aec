/** Optional values, used for the interceptor's "no previous request" state. */
module Wrappers {

  datatype Option<+T> = None | Some(value: T)
}
