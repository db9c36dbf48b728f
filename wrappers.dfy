/** The optional value used for nullable fields and for query results that may be absent. */
module Wrappers {

  datatype Option<+T> = None | Some(value: T)
}
