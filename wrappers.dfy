/** Optional values: a JSON field that may be absent, a lookup that may fail. */
module Wrappers {

  datatype Option<+T> = None | Some(value: T)

  function Min(a: nat, b: nat): nat {
    if a <= b then a else b
  }
}
