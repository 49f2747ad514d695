/** Optional values, standing for Rust's `Option`, and the smaller of two
    counts, standing for `cmp::min` on `usize`. */
module Wrappers {

  datatype Option<+T> = None | Some(value: T)

  function Min(a: nat, b: nat): nat
  {
    if a <= b then a else b
  }
}
