/**
 * The signup handler. `Decide` is the specification of one call of `handle`:
 * the response and the collaborator calls made, as a function of the request
 * body and of what the two collaborators answer. `SignupController.Handle`
 * is the handler itself, written as the controller runs it, and is proved
 * to agree with `Decide`.
 */
module Signup {
  import opened Wrappers
  import opened AddAccount
  import opened Http

  /** How one call of the email validator ends: it answers, or it throws. */
  datatype ValidatorOutcome = Answers(valid: bool) | ValidatorThrows

  /** One call the handler makes to a collaborator, with its argument. */
  datatype Call =
    | IsValidCall(email: string)
    | AddCall(input: AddAccountModel)

  /** What one call of `handle` produces: the response and the calls it made, in order. */
  datatype Handled = Handled(response: HttpResponse, calls: seq<Call>)

  /** The fields every signup must provide, in the order they are checked. */
  const RequiredFields: seq<string> := ["name", "email", "password", "passwordConfirmation"]

  /** The value of `field` in the body; an absent field reads as the empty string. */
  function Field(body: Body, field: string): string
  {
    if field in body then body[field] else ""
  }

  /** The field counts as given: present and not the empty string (JavaScript truthiness). */
  predicate Provided(body: Body, field: string)
  {
    Field(body, field) != ""
  }

  predicate AllProvided(body: Body)
  {
    forall i :: 0 <= i < |RequiredFields| ==> Provided(body, RequiredFields[i])
  }

  predicate PasswordsMatch(body: Body)
  {
    Field(body, "password") == Field(body, "passwordConfirmation")
  }

  /** The body passes the checks that need no collaborator. */
  predicate WellShaped(body: Body)
  {
    AllProvided(body) && PasswordsMatch(body)
  }

  /** Every check passes: the body is well shaped and the validator accepts its email. */
  predicate Accepted(body: Body, isValid: string -> ValidatorOutcome)
  {
    WellShaped(body) && isValid(Field(body, "email")) == Answers(true)
  }

  /** The creation payload built from the body: name, email and the plaintext password. */
  function CreationInput(body: Body): AddAccountModel
  {
    AddAccountModel(Field(body, "name"), Field(body, "email"), Field(body, "password"))
  }

  /** The position of the first field of `fields` that is not provided, or `|fields|` if there is none. */
  function FirstMissingIndex(body: Body, fields: seq<string>): (k: nat)
    ensures k <= |fields|
    ensures forall j :: 0 <= j < k ==> Provided(body, fields[j])
    ensures k < |fields| ==> !Provided(body, fields[k])
    decreases |fields|
  {
    if fields == [] || !Provided(body, fields[0]) then 0
    else 1 + FirstMissingIndex(body, fields[1..])
  }

  /**
   * The checks that need no collaborator, as a parse step: the first missing
   * field, then the password comparison; otherwise the creation payload.
   */
  function ParseSignup(body: Body): (r: Result<AddAccountModel, HttpError>)
    ensures r.Success? <==> WellShaped(body)
    ensures r.Success? ==> r.value == CreationInput(body)
    ensures r.Success? ==> r.value.name != "" && r.value.email != "" && r.value.password != ""
    ensures r.Failure? && !AllProvided(body) ==>
      exists i :: 0 <= i < |RequiredFields| && r.error == MissingParam(RequiredFields[i])
        && !Provided(body, RequiredFields[i])
        && forall j :: 0 <= j < i ==> Provided(body, RequiredFields[j])
    ensures r.Failure? && AllProvided(body) ==> r.error == InvalidParam("passwordConfirmation")
  {
    var k := FirstMissingIndex(body, RequiredFields);
    if k < |RequiredFields| then Failure(MissingParam(RequiredFields[k]))
    else if !PasswordsMatch(body) then Failure(InvalidParam("passwordConfirmation"))
    else Success(CreationInput(body))
  }

  /** The outcome of the checks before account creation. */
  datatype Screened =
    | Stopped(response: HttpResponse, calls: seq<Call>)
    | Cleared(input: AddAccountModel)

  /** Steps 1 to 3 of `handle`: presence, password match, then one call of the email validator. */
  function Screen(body: Body, isValid: string -> ValidatorOutcome): Screened
  {
    match ParseSignup(body)
    case Failure(error) => Stopped(BadRequest(error), [])
    case Success(input) =>
      match isValid(input.email)
      case ValidatorThrows => Stopped(ServerErrorResponse, [IsValidCall(input.email)])
      case Answers(valid) =>
        if valid then Cleared(input)
        else Stopped(BadRequest(InvalidParam("email")), [IsValidCall(input.email)])
  }

  /** The response for an awaited `add`: the created account, or a server error for any failure. */
  function AddResponse(outcome: AddOutcome): HttpResponse
  {
    match outcome
    case Resolves(account) => Ok(account)
    case Rejects => ServerErrorResponse
    case ThrowsSynchronously => ServerErrorResponse
  }

  /**
   * One call of `handle` on a request whose body exists. Every path ends in a
   * response: status 400, 500 or 200, and 200 exactly when an account is returned.
   */
  function Decide(body: Body, isValid: string -> ValidatorOutcome, add: AddAccountModel -> AddOutcome): (r: Handled)
    ensures r.response.statusCode == 200 || r.response.statusCode == 400 || r.response.statusCode == 500
    ensures r.response.statusCode == 200 <==> r.response.body.AccountBody?
    ensures r.response.statusCode == 400 <==>
      r.response.body.ErrorBody? && (r.response.body.error.MissingParam? || r.response.body.error.InvalidParam?)
    ensures r.response.statusCode == 500 <==> r.response.body == ErrorBody(ServerError)
    ensures |r.calls| <= 2
  {
    match Screen(body, isValid)
    case Stopped(response, calls) => Handled(response, calls)
    case Cleared(input) =>
      Handled(AddResponse(add(input)), [IsValidCall(input.email), AddCall(input)])
  }

  /** The arguments the email validator received, in call order. */
  function ValidatorArgs(calls: seq<Call>): seq<string>
  {
    if calls == [] then []
    else (if calls[0].IsValidCall? then [calls[0].email] else []) + ValidatorArgs(calls[1..])
  }

  /** The payloads `add` received, in call order. */
  function AddArgs(calls: seq<Call>): seq<AddAccountModel>
  {
    if calls == [] then []
    else (if calls[0].AddCall? then [calls[0].input] else []) + AddArgs(calls[1..])
  }

  /** The signup controller with its two injected collaborators. */
  class SignupController {
    const emailValidator: string -> ValidatorOutcome
    const addAccount: AddAccountModel -> AddOutcome

    constructor (emailValidator: string -> ValidatorOutcome, addAccount: AddAccountModel -> AddOutcome)
      ensures this.emailValidator == emailValidator && this.addAccount == addAccount
    {
      this.emailValidator := emailValidator;
      this.addAccount := addAccount;
    }

    /**
     * Handles one signup request: scans the required fields in order and
     * stops at the first one missing, compares the passwords, asks the email
     * validator, then creates the account. The ghost `calls` is the trace of
     * the collaborator calls made, as the tests observe it through spies.
     */
    method Handle(request: HttpRequest) returns (response: HttpResponse, ghost calls: seq<Call>)
      requires request.body.Some?
      ensures response == Decide(request.body.value, emailValidator, addAccount).response
      ensures calls == Decide(request.body.value, emailValidator, addAccount).calls
    {
      var body := request.body.value;
      var name, email := Field(body, "name"), Field(body, "email");
      var password, passwordConfirmation := Field(body, "password"), Field(body, "passwordConfirmation");
      calls := [];

      for i := 0 to |RequiredFields|
        invariant forall j :: 0 <= j < i ==> Provided(body, RequiredFields[j])
      {
        var field := RequiredFields[i];
        if Field(body, field) == "" {
          return BadRequest(MissingParam(field)), calls;
        }
      }

      if password != passwordConfirmation {
        return BadRequest(InvalidParam("passwordConfirmation")), calls;
      }

      var isValid := emailValidator(email);
      calls := calls + [IsValidCall(email)];
      if isValid.ValidatorThrows? {
        return ServerErrorResponse, calls;
      }
      if !isValid.valid {
        return BadRequest(InvalidParam("email")), calls;
      }

      var input := AddAccountModel(name, email, password);
      var created := addAccount(input);
      calls := calls + [AddCall(input)];
      if created.Resolves? {
        response := Ok(created.account);
      } else {
        response := ServerErrorResponse;
      }
    }
  }
}
