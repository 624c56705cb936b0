/** Optional values, standing for the TypeScript `?:` fields and `undefined` results. */
module Wrappers {

  datatype Option<+T> = None | Some(value: T)
}
