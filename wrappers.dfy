/** Optional values. `None` is JavaScript's `null` where a value is read back
    from storage or the query string, and `undefined` where a claim is missing
    from a token payload. */
module Wrappers {
  datatype Option<+T> = None | Some(value: T)

  /** JavaScript truthiness of an optional string: present and non-empty. */
  predicate Truthy(v: Option<string>)
  {
    v.Some? && v.value != ""
  }
}
