/** The outcome of the access checks the note and event handlers run before
    touching a stored record, and the error reply each refusal gets. */
module Access {
  import opened Http

  datatype Access =
    | Unauthenticated   // no `req.user`
    | Missing           // no record with that id
    | Denied            // the caller may not do this to the record
    | Allowed

  const NotAuthenticated := "Not authenticated"
  const AccessDenied := "Access denied"

  /** The reply to a refused request; `notFound` is the resource's not-found text. */
  function Refusal<T>(a: Access, notFound: string): Reply<T>
    requires a != Allowed
  {
    match a
    case Unauthenticated => Reply(401, ErrorJson(NotAuthenticated))
    case Missing => Reply(404, ErrorJson(notFound))
    case Denied => Reply(403, ErrorJson(AccessDenied))
  }
}
