/** Optional values and results, the shapes the Rust code gets from `Option` and `syn::Result`. */
module Wrappers {

  datatype Option<+T> = None | Some(value: T)

  datatype Result<+T, +E> = Ok(value: T) | Err(error: E)
}
