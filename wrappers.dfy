/** Optional values: a request parameter that may be missing or unparsable. */
module Wrappers {

  datatype Option<+T> = None | Some(value: T)
}
