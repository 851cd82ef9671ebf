/** Optional values, standing for the source's optional fields (`field?: T`). */
module Wrappers {

  datatype Option<+T> = None | Some(value: T)
}
