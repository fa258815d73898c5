/** Small shared vocabulary: optional values, record identifiers and HTTP replies. */
module Base {

  /** A value that may be absent (JavaScript `undefined`/`null`, or a lookup that found nothing). */
  datatype Option<+T> = None | Some(value: T)

  /** Database identifiers (Mongo ObjectIds or FileDB ids), compared by value. */
  type Id = nat

  /** Timestamps in milliseconds, supplied by the caller instead of read from a clock. */
  type Time = int

  /** What a request handler sends back: a success payload, or an error status code. */
  datatype Reply<+T> = Ok(value: T) | Error(code: int)

  /**
   * A string field of a request body that is there and non-empty: the truthy
   * strings of JavaScript, and what mongoose's `required` accepts.
   */
  predicate Present(s: Option<string>)
  {
    s.Some? && s.value != ""
  }

  const BadRequest := 400
  const Forbidden := 403
  const NotFound := 404
  const ServerError := 500
}
