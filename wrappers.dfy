/** The optional value used throughout the model. In the JavaScript source a
    missing number is `NaN` or `undefined`; here it is `None`. */
module Wrappers {
  datatype Option<+T> = None | Some(value: T)
}
