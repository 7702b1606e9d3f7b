/** The JavaScript "value or undefined" shape used throughout the model. */
module Options {
  datatype Option<+T> = None | Some(value: T)
}
