/** The one helper type shared by every module: a value that may be absent. It stands for a Go map
    lookup that misses, a nil pointer, and an error result whose text does not matter to the
    operation that returns it. */
module Wrappers {
  datatype Option<+T> = None | Some(value: T)
}
