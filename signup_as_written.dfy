/**
 * `handle` exactly as src/presentation/controllers/signup.ts writes it: the
 * call of `add` is not awaited, so only a synchronous throw reaches the
 * `catch`, and success answers status 200 with an empty body. The model in
 * `Signup` follows the intended behaviour; the lemmas here show where the
 * two part.
 */
module SignupAsWritten {
  import opened AddAccount
  import opened Http
  import opened Signup

  /** The response for an `add` whose promise is dropped: it depends only on whether `add` threw. */
  function UnawaitedAddResponse(outcome: AddOutcome): HttpResponse
  {
    if outcome.ThrowsSynchronously? then ServerErrorResponse else HttpResponse(200, EmptyBody)
  }

  /** One call of the handler as written. */
  function DecideAsWritten(body: Body, isValid: string -> ValidatorOutcome, add: AddAccountModel -> AddOutcome): (r: Handled)
    ensures r.response.statusCode == 200 <==> r.response.body == EmptyBody
  {
    match Screen(body, isValid)
    case Stopped(response, calls) => Handled(response, calls)
    case Cleared(input) =>
      Handled(UnawaitedAddResponse(add(input)), [IsValidCall(input.email), AddCall(input)])
  }

  /** Up to the call of `add` the code as written and the intended handler agree, calls included. */
  lemma AgreesBeforeCreation(body: Body, isValid: string -> ValidatorOutcome, add: AddAccountModel -> AddOutcome)
    ensures DecideAsWritten(body, isValid, add).calls == Decide(body, isValid, add).calls
    ensures !Accepted(body, isValid) ==> DecideAsWritten(body, isValid, add) == Decide(body, isValid, add)
  {
  }

  /** A rejected `add` is answered 200 by the code as written, where a server error is intended. */
  lemma RejectedAddAnswers200(body: Body, isValid: string -> ValidatorOutcome, add: AddAccountModel -> AddOutcome)
    requires Accepted(body, isValid)
    requires add(CreationInput(body)) == Rejects
    ensures DecideAsWritten(body, isValid, add).response == HttpResponse(200, EmptyBody)
    ensures Decide(body, isValid, add).response == ServerErrorResponse
  {
  }

  /** A synchronous throw from `add` still reaches the `catch` in the code as written: a server error. */
  lemma ThrowingAddIsServerError(body: Body, isValid: string -> ValidatorOutcome, add: AddAccountModel -> AddOutcome)
    requires Accepted(body, isValid)
    requires add(CreationInput(body)) == ThrowsSynchronously
    ensures DecideAsWritten(body, isValid, add).response == ServerErrorResponse
  {
  }

  /** A created account is not returned by the code as written: the body is empty. */
  lemma SuccessBodyIsEmpty(body: Body, isValid: string -> ValidatorOutcome,
                           add: AddAccountModel -> AddOutcome, account: AccountModel)
    requires Accepted(body, isValid)
    requires add(CreationInput(body)) == Resolves(account)
    ensures DecideAsWritten(body, isValid, add).response == HttpResponse(200, EmptyBody)
    ensures Decide(body, isValid, add).response == HttpResponse(200, AccountBody(account))
  {
  }
}
