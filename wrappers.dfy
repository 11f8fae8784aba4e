/** Optional values: a missing property, an absent storage key, a failed parse. */
module Wrappers {

  datatype Option<+T> = None | Some(value: T)
}
