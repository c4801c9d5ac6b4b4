/** The optional-value datatype shared by the model. */
module Wrappers {

  /** `None` stands for an absent value, and in particular for a Java `null` reference. */
  datatype Option<+T> = None | Some(value: T)
}
