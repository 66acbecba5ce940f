/** The optional value used wherever the form holds either a record or nothing. */
module Wrappers {

  /** `None` stands for both `null` and `undefined` in the form's state. */
  datatype Option<+T> = None | Some(value: T)
}
