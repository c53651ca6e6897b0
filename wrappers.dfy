/** The optional-value datatype used across the model for JavaScript's
    `null`/`undefined` ("absent") versus a present value. */
module Wrappers {

  datatype Option<+T> = None | Some(value: T)
}
