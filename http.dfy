/** What a handler sends back: a status code and a JSON body. The body shapes are
    the few the controllers use; `T` is the payload of a successful reply. */
module Http {
  import opened Joi

  datatype Body<+T> =
    | Payload(value: T)                    // the resource itself, as JSON
    | ErrorJson(error: string)             // `{ error }`
    | MessageJson(message: string)         // `{ message }`
    | Invalid(violations: set<Path>)       // `{ message }` built by Joi from the violations
    | InvalidWithDetails(violations: set<Path>) // `{ message, details }`
    | NoContent                            // `status(204).send()`

  datatype Reply<+T> = Reply(status: int, body: Body<T>)

  /** A 2xx reply. */
  predicate IsSuccess<T>(r: Reply<T>) {
    200 <= r.status < 300
  }
}
