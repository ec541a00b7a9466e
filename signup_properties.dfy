/**
 * What `handle` promises, stated over its specification `Signup.Decide`:
 * which check answers a request, which collaborators are called and with
 * what, and what the response is on every path.
 */
module SignupProperties {
  import opened Wrappers
  import opened AddAccount
  import opened Http
  import opened Signup

  /** The traces `handle` can leave: none, the validator only, or the validator then `add`. */
  lemma TraceShapes(email: string, input: AddAccountModel)
    ensures ValidatorArgs([]) == [] && AddArgs([]) == []
    ensures ValidatorArgs([IsValidCall(email)]) == [email] && AddArgs([IsValidCall(email)]) == []
    ensures ValidatorArgs([IsValidCall(email), AddCall(input)]) == [email]
    ensures AddArgs([IsValidCall(email), AddCall(input)]) == [input]
  {
    var two := [IsValidCall(email), AddCall(input)];
    assert two[1..] == [AddCall(input)];
    assert two[1..][1..] == [];
    assert [IsValidCall(email)][1..] == [];
  }

  /**
   * A missing-field answer names exactly the first required field, in the
   * order name, email, password, passwordConfirmation, that is absent or
   * empty; no collaborator is called.
   */
  lemma MissingParamIsFirstAbsentField(body: Body, isValid: string -> ValidatorOutcome,
                                       add: AddAccountModel -> AddOutcome, i: nat)
    requires i < |RequiredFields|
    ensures Decide(body, isValid, add).response == BadRequest(MissingParam(RequiredFields[i]))
        <==> !Provided(body, RequiredFields[i]) && forall j :: 0 <= j < i ==> Provided(body, RequiredFields[j])
    ensures !Provided(body, RequiredFields[i]) && (forall j :: 0 <= j < i ==> Provided(body, RequiredFields[j]))
        ==> Decide(body, isValid, add).calls == []
  {
  }

  /** With every field given but differing passwords, the confirmation is reported and nothing is called. */
  lemma MismatchReportsConfirmation(body: Body, isValid: string -> ValidatorOutcome, add: AddAccountModel -> AddOutcome)
    requires AllProvided(body)
    requires Field(body, "password") != Field(body, "passwordConfirmation")
    ensures Decide(body, isValid, add) == Handled(BadRequest(InvalidParam("passwordConfirmation")), [])
  {
  }

  /**
   * The email validator is called exactly once, with exactly the email field,
   * when the body passes the presence and match checks, and never otherwise.
   */
  lemma ValidatorCalledOnceWithEmail(body: Body, isValid: string -> ValidatorOutcome, add: AddAccountModel -> AddOutcome)
    ensures ValidatorArgs(Decide(body, isValid, add).calls) == if WellShaped(body) then [Field(body, "email")] else []
  {
    TraceShapes(Field(body, "email"), CreationInput(body));
  }

  /** A rejected email is reported as an invalid email and the account is not created. */
  lemma RejectedEmailReported(body: Body, isValid: string -> ValidatorOutcome, add: AddAccountModel -> AddOutcome)
    requires WellShaped(body)
    requires isValid(Field(body, "email")) == Answers(false)
    ensures Decide(body, isValid, add).response == BadRequest(InvalidParam("email"))
    ensures AddArgs(Decide(body, isValid, add).calls) == []
  {
    TraceShapes(Field(body, "email"), CreationInput(body));
  }

  /** A validator that throws gives a server error and the account is not created. */
  lemma ThrowingValidatorIsServerError(body: Body, isValid: string -> ValidatorOutcome, add: AddAccountModel -> AddOutcome)
    requires WellShaped(body)
    requires isValid(Field(body, "email")) == ValidatorThrows
    ensures Decide(body, isValid, add).response == ServerErrorResponse
    ensures AddArgs(Decide(body, isValid, add).calls) == []
  {
    TraceShapes(Field(body, "email"), CreationInput(body));
  }

  /**
   * `add` is called exactly once, only when every check passes, with exactly
   * name, email and the plaintext password; the confirmation is not sent.
   */
  lemma AddCalledOnceWithPayload(body: Body, isValid: string -> ValidatorOutcome, add: AddAccountModel -> AddOutcome)
    ensures AddArgs(Decide(body, isValid, add).calls)
         == if Accepted(body, isValid)
            then [AddAccountModel(Field(body, "name"), Field(body, "email"), Field(body, "password"))]
            else []
  {
    TraceShapes(Field(body, "email"), CreationInput(body));
  }

  /** The payload sent to `add` never has an empty name, email or password. */
  lemma CreationPayloadNeverEmpty(body: Body, isValid: string -> ValidatorOutcome,
                                  add: AddAccountModel -> AddOutcome, input: AddAccountModel)
    requires input in AddArgs(Decide(body, isValid, add).calls)
    ensures input.name != "" && input.email != "" && input.password != ""
  {
    AddCalledOnceWithPayload(body, isValid, add);
  }

  /** A failed `add`, rejected or thrown, gives a server error. */
  lemma FailedAddIsServerError(body: Body, isValid: string -> ValidatorOutcome, add: AddAccountModel -> AddOutcome)
    requires Accepted(body, isValid)
    requires !add(CreationInput(body)).Resolves?
    ensures Decide(body, isValid, add).response == ServerErrorResponse
  {
  }

  /** A successful `add` gives status 200 with the account it returned as the body. */
  lemma CreatedAccountReturned(body: Body, isValid: string -> ValidatorOutcome,
                               add: AddAccountModel -> AddOutcome, account: AccountModel)
    requires Accepted(body, isValid)
    requires add(CreationInput(body)) == Resolves(account)
    ensures Decide(body, isValid, add).response == HttpResponse(200, AccountBody(account))
  {
  }

  /** Conversely, status 200 is only ever the answer of a request that passed every check and was created. */
  lemma OkOnlyAfterCreation(body: Body, isValid: string -> ValidatorOutcome, add: AddAccountModel -> AddOutcome)
    requires Decide(body, isValid, add).response.statusCode == 200
    ensures Accepted(body, isValid)
    ensures add(CreationInput(body)) == Resolves(Decide(body, isValid, add).response.body.account)
  {
  }

  /** A server error comes only from a collaborator: a throwing validator or a failed `add`. */
  lemma ServerErrorOnlyFromCollaborators(body: Body, isValid: string -> ValidatorOutcome, add: AddAccountModel -> AddOutcome)
    requires Decide(body, isValid, add).response.statusCode == 500
    ensures WellShaped(body)
    ensures isValid(Field(body, "email")) == ValidatorThrows
         || (isValid(Field(body, "email")) == Answers(true) && !add(CreationInput(body)).Resolves?)
  {
  }

  /** The end-to-end scenario: a valid request and a store that returns a fixed account. */
  lemma ValidSignupScenario()
    ensures
      var body := map["name" := "any name", "email" := "any_email@mail.com",
                      "password" := "any_password", "passwordConfirmation" := "any_password"];
      var account := AccountModel("valid_id", "valid_name", "valid_email", "valid_password");
      Decide(body, (e: string) => Answers(true), (input: AddAccountModel) => Resolves(account))
        == Handled(HttpResponse(200, AccountBody(account)),
                   [IsValidCall("any_email@mail.com"),
                    AddCall(AddAccountModel("any name", "any_email@mail.com", "any_password"))])
  {
  }
}
