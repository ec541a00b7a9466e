/** Requests, responses and the error taxonomy of the presentation layer. */
module Http {
  import opened Wrappers
  import opened AddAccount

  /** The request body: field name to submitted value. */
  type Body = map<string, string>

  /** An inbound request; `None` stands for a request with no body at all. */
  datatype HttpRequest = HttpRequest(body: Option<Body>)

  /** The error values a response can carry. */
  datatype HttpError =
    | MissingParam(param: string)
    | InvalidParam(param: string)
    | ServerError

  datatype ResponseBody =
    | ErrorBody(error: HttpError)
    | AccountBody(account: AccountModel)
    | EmptyBody

  datatype HttpResponse = HttpResponse(statusCode: int, body: ResponseBody)

  /** A client error: status 400 carrying the error value. */
  function BadRequest(error: HttpError): HttpResponse
  {
    HttpResponse(400, ErrorBody(error))
  }

  /** An unexpected collaborator failure: status 500, no details. */
  const ServerErrorResponse: HttpResponse := HttpResponse(500, ErrorBody(ServerError))

  /** A successful signup: status 200 with the created account. */
  function Ok(account: AccountModel): HttpResponse
  {
    HttpResponse(200, AccountBody(account))
  }
}
