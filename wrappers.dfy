/** Option stands for a C# reference that the code checks against null. */
module Wrappers {

  datatype Option<+T> = None | Some(value: T)
}
