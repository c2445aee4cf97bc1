/** An optional value: a tool argument that may be absent, or a parse that may fail. */
module Wrappers {

  datatype Option<+T> = None | Some(value: T)
}
