/** Optional values, used wherever the proxy may or may not have something in hand. */
module Wrappers {

  datatype Option<+T> = None | Some(value: T)
}
