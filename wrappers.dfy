/** Optional values and pass/fail outcomes, standing for Rust's `Option` and `Result<(), E>`. */
module Wrappers {

  datatype Option<+T> = None | Some(value: T)

  datatype Outcome<+E> = Pass | Fail(error: E)
}
