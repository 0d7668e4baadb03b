/** Optional values, used for what app.py writes as `None` or a missing key. */
module Wrappers {

  datatype Option<+T> = None | Some(value: T)
}
