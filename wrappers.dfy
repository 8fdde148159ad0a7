/** The optional value used where a Python function may produce nothing. */
module Wrappers {

  datatype Option<+T> = None | Some(value: T) {

    /** The value as a sequence of zero or one elements. */
    function ToSeq(): seq<T> {
      if Some? then [value] else []
    }
  }
}
