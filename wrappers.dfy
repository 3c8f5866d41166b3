/** Option, used wherever the source's switches can fall through and yield `undefined`. */
module Wrappers {

  datatype Option<+T> = None | Some(value: T)
}
