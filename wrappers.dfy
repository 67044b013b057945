/** Option, used wherever the source has a value that may be absent
    (an undefined request field, a failed parse, a null selection). */
module Wrappers {
  datatype Option<+T> = None | Some(value: T)
}
