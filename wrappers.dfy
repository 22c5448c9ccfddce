/** Small failure-compatible wrapper shared by the other modules. */
module Wrappers {

  /** `None` stands for a JavaScript exception (or an absent value); `Some` for a normal result. */
  datatype Option<+T> = None | Some(value: T)
}
