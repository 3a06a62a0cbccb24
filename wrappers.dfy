/** Optional values: a TypeScript `T | undefined` or `T | null` is `Option<T>` here. */
module Wrappers {

  datatype Option<+T> = None | Some(value: T)
}
