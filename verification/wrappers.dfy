/** Option, the value that may be missing, used across the model. */
module Wrappers {

  /** `None` stands for JavaScript's `undefined` / `null` where the program returns either. */
  datatype Option<+T> = None | Some(value: T)
}
