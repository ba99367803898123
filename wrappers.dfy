/** A value that may be absent: the model of a C# nullable (`string?`, `bool?`, `long?`). */
module Wrappers {

  datatype Option<+T> = None | Some(value: T)
}
