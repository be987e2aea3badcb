/** Option and Result, the two shapes the site's code uses for "maybe absent"
    (`undefined`, `?? fallback`) and for thrown errors. */
module Wrappers {

  datatype Option<+T> = None | Some(value: T) {
    /** `x ?? d` */
    function GetOr(default: T): T {
      match this
      case Some(v) => v
      case None => default
    }
  }

  datatype Result<+R, +E> = Success(value: R) | Failure(error: E)

  /** JavaScript truthiness of an optional string (`if (v)`): present and
      not empty. */
  predicate Truthy(v: Option<string>) {
    v.Some? && v.value != ""
  }
}
