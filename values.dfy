/** JavaScript values as the backend sees them.

    A request field or a record field that may be a string or may be missing
    (`undefined` or `null`) is an `Option<string>`. JavaScript's truthiness of
    such a value, and the `x || null` idiom built on it, are defined here once.
 */
module Values {

  datatype Option<+T> = None | Some(value: T)

  datatype Result<+T, +E> = Ok(value: T) | Err(error: E)

  /** A string-or-missing value is truthy when it is present and not empty. */
  predicate Truthy(o: Option<string>) {
    o.Some? && o.value != ""
  }

  /** `x || null`: a falsy value becomes `null`, a truthy one is kept. */
  function OrNull(o: Option<string>): (r: Option<string>)
    ensures r.Some? <==> Truthy(o)
    ensures r.Some? ==> r == o
  {
    if Truthy(o) then o else None
  }

  /** `x || fallback` for a string-or-missing value. */
  function OrElse(o: Option<string>, fallback: string): (r: string)
    ensures Truthy(o) ==> r == o.value
    ensures !Truthy(o) ==> r == fallback
  {
    if Truthy(o) then o.value else fallback
  }
}
