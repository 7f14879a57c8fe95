/** Optional values: `None` stands for the JavaScript `undefined` result of a lookup or for
    an exception thrown by a library call, which the client's handler catches. */
module Wrappers {
  datatype Option<+T> = None | Some(value: T)
}
