/** The present/absent wrapper that replaces the scene's nullable object pointers. */
module Wrappers {

  datatype Option<+T> = None | Some(value: T)

}
