/** Option, used where the source returns a value or nothing (a failed
    `listShards`, a missing dictionary key). */
module Wrappers {
  datatype Option<+T> = None | Some(value: T)
}
