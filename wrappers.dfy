/** The optional value used for JavaScript's `null` / `undefined` fields. */
module Wrappers {

  /** `None` stands for a field that is absent, or `null` where the code does not tell the two apart. */
  datatype Option<+T> = None | Some(value: T)
}
