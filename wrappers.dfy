/** Option and Result, and the two pieces of JavaScript value semantics the
    source relies on: truthiness of an optional string and the `??` operator. */
module Wrappers {

  /** A value that may be `null`/`undefined` (None) or present (Some). */
  datatype Option<+T> = None | Some(value: T)

  /** The outcome of an operation that may throw: a value or the error thrown. */
  datatype Result<+T, +E> = Success(value: T) | Failure(error: E)

  /** `if (s)` on a `string | null | undefined`: true exactly for a present, non-empty string. */
  predicate Truthy(s: Option<string>) {
    s.Some? && s.value != ""
  }

  /** `o ?? d`: the value when present, otherwise the default. */
  function Coalesce<T>(o: Option<T>, d: T): T {
    match o
    case Some(v) => v
    case None => d
  }

  /** What the event-stream decoder hands the transform for each event: a chunk
      that passed schema validation, or a failure (which the transform skips). */
  datatype ParseResult<+T> = ParseSuccess(value: T) | ParseFailure

  /** Both models read `response.choices[0]` without a check; on a response
      without choices the property access that follows throws a TypeError. */
  datatype GenerateError = NoChoice

  lemma AppendAssoc<T>(a: seq<T>, b: seq<T>, c: seq<T>)
    ensures a + b + c == a + (b + c)
  {
  }
}
