/** Optional values: an emitted change, a focus target, a navigation. */
module Wrappers {

  datatype Option<+T> = None | Some(value: T)
}
