/** The optional value used wherever the source has `T | null`, `undefined`
    or an `Array.find` that may come back empty. */
module Wrappers {

  datatype Option<+T> = None | Some(value: T)
}
