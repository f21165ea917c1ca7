/** Optional values, used for components that may be absent from a scene object. */
module Wrappers {

  datatype Option<+T> = None | Some(value: T)

}
