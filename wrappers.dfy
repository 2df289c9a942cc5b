/** The optional value used for "the query has no such key" and "this event emits nothing". */
module Wrappers {

  datatype Option<+T> = None | Some(value: T)
}
