/** The result datatype shared by the model. */
module Wrappers {
  /** `None` stands for a raised exception wherever a model function may fail. */
  datatype Option<+T> = None | Some(value: T)
}
