/** Optional values: a record that may be absent, a JSON body that may not have parsed. */
module Wrappers {

  datatype Option<+T> = None | Some(value: T)
}
