/** The stock optional value: `None` stands for the lookup or read where
    sami2py raises. */
module Wrappers {
  datatype Option<+T> = None | Some(value: T)
}
