/** Option, Result and Outcome: the shapes the storefront's optional values,
    backend replies and thrown errors take in this model. */
module Wrappers {

  /** A value that may be absent (`undefined` / `null` in the storefront). */
  datatype Option<+T> = None | Some(value: T) {
    function GetOr(default: T): T {
      match this
      case Some(v) => v
      case None => default
    }
  }

  /** The outcome of an awaited call: the resolved value or the rejection. */
  datatype Result<+T, +E> = Ok(value: T) | Err(error: E)

  /** The outcome of an async action that resolves to nothing or throws `error`. */
  datatype Outcome<+E> = Pass | Fail(error: E)

  /** `Some(s)` where JavaScript would treat the stored string as truthy. */
  predicate Truthy(o: Option<string>) {
    o.Some? && o.value != ""
  }
}
