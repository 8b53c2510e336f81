/** Optional values, used for the JavaScript `undefined` / `null` results of the page's lookups. */
module Wrappers {
  datatype Option<+T> = None | Some(value: T)
}
