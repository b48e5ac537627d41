/** The optional value used throughout the model for Python's `None`-or-value results. */
module Wrappers {

  /** `None` stands for an absent value (a missing key, a failed conversion). */
  datatype Option<+T> = None | Some(value: T)
}
