/** A value that may be absent, standing for a C# reference that may be null. */
module Wrappers {

  datatype Option<+T> = None | Some(value: T)
}
