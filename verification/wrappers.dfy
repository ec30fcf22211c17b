/** The optional-value datatype used throughout the model, standing in for
    Python's `None` results (`dict.get` misses, absent chat handles). */
module Wrappers {

  datatype Option<+T> = None | Some(value: T)
}
