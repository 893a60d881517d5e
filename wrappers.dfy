/** Optional values, standing for the source's nullable references and for
    results that are missing when the source would throw. */
module Wrappers {

  datatype Option<+T> = None | Some(value: T)
}
