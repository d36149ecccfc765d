/** What every module needs and no part of the program owns. */
module Wrappers {
  datatype Option<+T> = None | Some(value: T)
}
