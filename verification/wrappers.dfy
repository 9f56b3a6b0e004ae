/** The conventional optional-value datatype, used for the scanner's optional arguments. */
module Wrappers {
  datatype Option<+T> = None | Some(value: T)
}
