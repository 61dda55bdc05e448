/** Optional values: an absent storage key, a quantity that did not parse, a title not found. */
module Wrappers {

  datatype Option<+T> = None | Some(value: T)
}
