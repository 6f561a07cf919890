/** Shared value types: options, outcomes and the JSON documents that jobs,
    checkpoints and mailboxes carry. */
module Values {

  datatype Option<+T> = None | Some(value: T)

  datatype Result<+T, +E> = Ok(value: T) | Err(error: E)

  /** Nanoseconds on the one clock that the database and the workers share. */
  type Time = int

  const MICROSECOND: Time := 1_000
  const SECOND: Time := 1_000_000_000
  const MINUTE: Time := 60 * SECOND

  type JobId = string
  type WorkerId = string

  /** A JSON document up to normalization, which is all `jsonb` keeps of it.
      The runtime itself writes two shapes: a job id and an instant. */
  datatype Json =
    | EmptyObject
    | Document(text: string)
    | JobRef(id: JobId)
    | Instant(at: Time)

  /** Empty bytes are stored as the empty object. */
  function OrEmpty(bytes: Option<Json>): Json {
    match bytes
    case None => EmptyObject
    case Some(json) => json
  }

  function Min(a: int, b: int): int {
    if a < b then a else b
  }
}
