/** Optional values: a missing result (a rejected calculator input, an
    export of an empty transcript) is `None` rather than a precondition. */
module Wrappers {

  datatype Option<+T> = None | Some(value: T)
}
