/** The optional value used throughout the model for JavaScript's
    `null`/`undefined` and for a `parseFloat` that yields NaN. */
module Wrappers {

  datatype Option<+T> = None | Some(value: T)
}
