/** The `handleError` middleware of src/middlewares/errorHandling.js: it turns an error
    into a status code and a body holding only a message. */
module ErrorHandling {
  import opened Common
  import Authorization

  const GenericMessage: string := "Ocorreu um erro no servidor."

  /** The JSON body: `{ message }` and nothing else. */
  datatype Body = Body(message: string)
  datatype Response = Response(status: int, body: Body)

  /** `err.statusCode || 500`: undefined and 0 are falsy. */
  function StatusOf(err: AppError): (s: int)
    ensures err.statusCode.None? || err.statusCode == Some(0) ==> s == 500
    ensures err.statusCode.Some? && err.statusCode.value != 0 ==> s == err.statusCode.value
  {
    if err.statusCode.None? || err.statusCode.value == 0 then 500 else err.statusCode.value
  }

  function HandleError(err: AppError): (r: Response)
    ensures r.status == StatusOf(err)
    ensures r.status != 500 ==> r.body.message == err.message
    ensures r.status == 500 ==> r.body.message == GenericMessage
    ensures err.statusCode == Some(500) ==> r == Response(500, Body(GenericMessage))
  {
    var status := StatusOf(err);
    Response(status, Body(if status != 500 then err.message else GenericMessage))
  }

  /** The internal detail of a server error never reaches the client. */
  lemma ServerErrorsHideDetail(err: AppError)
    ensures StatusOf(err) == 500 ==> HandleError(err).body.message == GenericMessage
    ensures StatusOf(err) != 500 ==> HandleError(err).body == Body(err.message)
  {
  }

  /** The errors raised by `authorize` come out with their own code and message. */
  lemma AuthorizationErrorsSurface(requiredRoles: seq<string>, user: Option<Authorization.AuthUser>)
    requires Authorization.Authorize(requiredRoles, user).Reject?
    ensures var e := Authorization.Authorize(requiredRoles, user).error;
            HandleError(e) == Response(e.statusCode.value, Body(e.message))
    ensures HandleError(Authorization.Authorize(requiredRoles, user).error).status in {401, 403}
  {
  }
}
