/** Option stands for the source's nullable references: `None` is `null`. */
module Wrappers {
  datatype Option<+T> = None | Some(value: T)
}
