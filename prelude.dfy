/** Small definitions shared by the rest of the model. */
module Prelude {

  /** Python's `None`, or a value. */
  datatype Option<+T> = None | Some(value: T)
}
