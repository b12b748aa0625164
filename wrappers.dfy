/** Optional values, shared by the server and the client model. */
module Wrappers {

  /** A value that may be absent: JavaScript's `undefined`/`null` for a property or a lookup. */
  datatype Option<+T> = None | Some(value: T)
}
