/** Small shared datatypes. */
module Common {

  /** Python's `None` next to a present value. */
  datatype Option<+T> = None | Some(value: T)
}
