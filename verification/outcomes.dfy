/** Optional values and results with an error side, shared by the whole model. */
module Outcomes {

  /** A value that may be absent: JavaScript's `undefined` on the one side, a value on the other. */
  datatype Option<+T> = None | Some(value: T)

  /** The outcome of an operation that can fail with an error of type E. */
  datatype Result<+T, +E> = Success(value: T) | Failure(error: E)

  /** JavaScript truthiness of an optional string: absent and empty are falsy. */
  predicate Truthy(m: Option<string>) {
    m.Some? && m.value != ""
  }

  /** The `m || fallback` idiom on an optional string. */
  function OrElse(m: Option<string>, fallback: string): (t: string)
    ensures Truthy(m) ==> t == m.value
    ensures !Truthy(m) ==> t == fallback
    ensures t != "" <==> Truthy(m) || fallback != ""
  {
    if Truthy(m) then m.value else fallback
  }
}
