/** Optional values, used for the browser store's "no entry under this key". */
module Wrappers {

  datatype Option<+T> = None | Some(value: T)
}
