/** The optional value used wherever the C# code returns null or a default. */
module Wrappers {

  datatype Option<+T> = None | Some(value: T)
}
