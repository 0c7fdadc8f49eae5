/** The optional value used wherever the C++ code returns a pointer that may be NULL
    or a parse may fail. */
module Wrappers {

  datatype Option<+T> = None | Some(value: T)
}
