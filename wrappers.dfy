/** Optional values, used for the error results of the loaders. */
module Wrappers {

  datatype Option<+T> = None | Some(value: T)
}
