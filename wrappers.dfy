/** Optional values and results used throughout the model. */
module Wrappers {

  /** An optional value; `None` stands for JavaScript's `null` and `undefined`. */
  datatype Option<+T> = None | Some(value: T)

  /** A value or an error; `Failure` stands for a rejected promise (a thrown error). */
  datatype Result<+R, +E> = Success(value: R) | Failure(error: E)

  /** Success without a value, or an error; the outcome of an `async` function returning nothing. */
  datatype Outcome<+E> = Pass | Fail(error: E)
}

/** The few pieces of JavaScript value semantics the core depends on. */
module Js {
  import opened Wrappers

  /** JavaScript truthiness of a string-or-null value: `null`, `undefined` and `''` are falsy. */
  predicate Truthy(v: Option<string>)
  {
    v.Some? && v.value != ""
  }
}
