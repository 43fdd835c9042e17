/** Optional values: a JavaScript `null` or an unparsable number. */
module Wrappers {

  datatype Option<+T> = None | Some(value: T)
}
