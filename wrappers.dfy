/** Optional values, used for "no table key matched" and for an unset filter. */
module Wrappers {

  datatype Option<+T> = None | Some(value: T)

}
