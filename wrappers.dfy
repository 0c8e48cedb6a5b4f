/** Optional values: the model's counterpart of a result that may be `undefined`. */
module Wrappers {
  datatype Option<T> = None | Some(value: T)
  {
    predicate IsSome() { Some? }
  }
}
