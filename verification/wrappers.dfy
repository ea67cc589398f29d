/** Optional values: a JavaScript field that may be `undefined`, a header that may be absent,
    or a call that may throw. */
module Wrappers {

  datatype Option<+T> = None | Some(value: T)

}
