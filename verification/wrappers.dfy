/** The optional value that stands in for the source's `null` and for
    `Array.prototype.find` coming back with `undefined`. */
module Wrappers {

  datatype Option<+T> = None | Some(value: T)
}
