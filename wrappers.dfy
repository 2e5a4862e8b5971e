/** Optional value, used where the source throws on a missing key. */
module Wrappers {

  datatype Option<+T> = None | Some(value: T)
}
