/** The nullable reference or value of the C# code: `None` stands for `null`. */
module Wrappers {
  datatype Option<+T> = None | Some(value: T)
}
