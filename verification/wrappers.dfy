/** The optional value used throughout the model for PHP's nullable values. */
module Wrappers {

  /** `None` stands for PHP's NULL (or an unset property). */
  datatype Option<+T> = None | Some(value: T)
}
