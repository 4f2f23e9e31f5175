/** The request and reply shapes shared by the route handlers. */
module Http {

  /** What a handler sends back: a status with a body, or a status with an
      error message. */
  datatype Reply<T> = Done(status: int, body: T) | Failed(status: int, message: string)

  /** The `payload.ids` field of a request body: absent (or any falsy value),
      present but not an array, or an array of ids. */
  datatype PayloadIds = Absent | NotAnArray | Array(values: seq<string>)

  const InvalidPayloadFormat := "Invalid payload format"

  /** The guard `!payload?.ids || !Array.isArray(payload.ids)`. */
  predicate IsValidPayload(ids: PayloadIds) {
    ids.Array?
  }
}
