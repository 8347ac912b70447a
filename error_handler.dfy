/** The central Express error handler and the catch branches of the controllers
    that follow the same rule. */
module ErrorHandler {
  import opened Common
  import opened Http

  /** What a handler can throw: an application error (a status and a message), or
      anything else, whose message is never shown. */
  datatype Thrown = Application(error: AppError) | Other(message: string)

  const InternalServerError := "Internal server error"

  /** `errorHandler`: an application error keeps its status and message, anything
      else becomes a fixed 500. */
  function HandleError(t: Thrown): (r: Reply<()>)
    ensures r.body.MessageJson?
    ensures t.Application? ==> r.status == t.error.statusCode && r.body.message == t.error.message
    ensures t.Other? ==> r.status == 500 && r.body.message == InternalServerError
  {
    match t
    case Application(e) => Reply(e.statusCode, MessageJson(e.message))
    case Other(_) => Reply(500, MessageJson(InternalServerError))
  }

  /** The reply to an unexpected error does not depend on what was thrown, so its
      message never leaks. */
  lemma OtherErrorsLeakNothing(m1: string, m2: string)
    ensures HandleError(Other(m1)) == HandleError(Other(m2))
    ensures HandleError(Other(m1)).body.message == InternalServerError
  {
  }

  /** A not-found error becomes 404 and a validation error 400, with their messages. */
  lemma ApplicationErrorStatuses(m: string)
    ensures HandleError(Application(NotFoundError(m))) == Reply(404, MessageJson(m))
    ensures HandleError(Application(ValidationError(m))) == Reply(400, MessageJson(m))
  {
  }

  /** A reply is a 500 exactly when the error was not an application error, or was
      one carrying status 500. */
  lemma InternalErrorIffUnexpected(t: Thrown)
    ensures HandleError(t).status == 500 <==> t.Other? || t.error.statusCode == 500
  {
  }
}
