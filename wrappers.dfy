/** Optional values: the `?` properties of a TypeScript record. */
module Wrappers {

  datatype Option<+T> = None | Some(value: T)
}
