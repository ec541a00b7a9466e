# Signup controller: a verified model

This project models the signup endpoint of a layered Node.js account API. Its
controller, `SignupController.handle`, validates the request body and then
creates the account. It runs five steps in a fixed order and stops at the
first one that fails:

1. It checks that `name`, `email`, `password` and `passwordConfirmation` are
   all given. The first field that is absent or empty gives 400 `MissingParam`.
2. It checks that the password equals its confirmation. If not, the answer is
   400 `InvalidParam("passwordConfirmation")`.
3. It asks the injected email validator about the email. A rejection gives
   400 `InvalidParam("email")`.
4. It calls the injected `AddAccount` use case with `{name, email, password}`.
5. It answers 200. If the validator throws, or `add` fails (once awaited, as
   the newer controller tests expect), it answers 500 `ServerError`.

Files and modules:

- `wrappers.dfy` (`Wrappers`): `Option` and `Result`.
- `add_account.dfy` (`AddAccount`): the creation payload `AddAccountModel`
  and the created `AccountModel`. It also has `AddOutcome`, the three ways a
  call of `add` can end: resolved with an account, rejected, or a synchronous
  throw.
- `http.dfy` (`Http`): the request, the response, and the error values
  `MissingParam`, `InvalidParam` and `ServerError`.
- `signup.dfy` (`Signup`): `Decide` specifies one call of `handle`. It gives
  the response and the trace of collaborator calls, as a function of the body
  and of what the collaborators answer. The class `SignupController` holds the
  two injected collaborators as constants. Its method `Handle` runs the
  required-field loop with early return, exactly as the controller does, and
  is proved equal to `Decide`.
- `signup_properties.dfy` (`SignupProperties`): what `handle` promises,
  proved about `Decide`.
- `signup_as_written.dfy` (`SignupAsWritten`): the controller exactly as the
  file shows it, with `add` not awaited and an empty success body. It also
  proves where this version differs from the intended one (see Findings).

Modelling choices:

- The two collaborators are function values, so each one's answer can depend
  on its argument:
  - the email validator is `string -> ValidatorOutcome` (answers true or
    false, or throws);
  - `add` is `AddAccountModel -> AddOutcome`.
- The real email-matching algorithm is never modelled. Any validator is
  allowed.
- The request body is a `map<string, string>`. An absent key reads as the
  empty string, because JavaScript treats `undefined` and `""` alike in the
  `!body[field]` check.
- The model follows the newer controller tests, where `add` is awaited and
  success returns the created account. The shown controller does neither;
  `SignupAsWritten` models it.
- The fourth field's name in `MissingParam` and `InvalidParam` is always
  `"passwordConfirmation"`.

## Model

| member | source | states |
|---|---|---|
| `Signup.FirstMissingIndex` | src/presentation/controllers/signup.ts:21-27 | the index it returns is the first required field, in scan order, that is absent or empty; every field before it is provided; it equals the list length only when all are provided |
| `Signup.ParseSignup` | src/presentation/controllers/signup.ts:21-31 | succeeds exactly when all four fields are provided and the passwords are equal. On success the payload is name, email and plaintext password, none of them empty. Otherwise the error is `MissingParam` of the first absent field, or `InvalidParam("passwordConfirmation")` when all four are given |
| `Signup.Decide` | src/presentation/controllers/signup.ts:16-51 | every request with a body gets a response, with status 200, 400 or 500. 200 exactly when the body is an account; 400 exactly when the body is a missing or invalid parameter; 500 exactly when the body is `ServerError`. At most two collaborator calls are made |
| `Signup.SignupController.constructor` | src/presentation/controllers/signup.ts:8-14 | stores the two injected collaborators unchanged |
| `Signup.SignupController.Handle` | src/presentation/controllers/signup.ts:16-51 | the loop over the required fields with early return, the password check, the validator call and the `add` call give exactly the response that `Decide` specifies; a ghost trace of the collaborator calls, as the tests observe them through spies, equals the trace `Decide` gives |
| `SignupProperties.MissingParamIsFirstAbsentField` | src/presentation/controllers/signup.ts:21-27 | the answer is 400 `MissingParam(f)` exactly when `f` is absent or empty and every field before it in the order name, email, password, passwordConfirmation is given. For that field no collaborator is called |
| `SignupProperties.MismatchReportsConfirmation` | src/presentation/controllers/signup.ts:29-31 | with all four fields given and different passwords (exact string comparison), the answer is 400 `InvalidParam("passwordConfirmation")` and neither collaborator is called |
| `SignupProperties.ValidatorCalledOnceWithEmail` | src/presentation/controllers/signup.ts:33 | the validator is called exactly once, with exactly the email field, when the presence and match checks pass, and never otherwise |
| `SignupProperties.RejectedEmailReported` | src/presentation/controllers/signup.ts:33-36 | when the validator answers false, the answer is 400 `InvalidParam("email")` and `add` is not called |
| `SignupProperties.ThrowingValidatorIsServerError` | src/presentation/controllers/signup.ts:33-50 | when the validator throws, the answer is 500 `ServerError` and `add` is not called |
| `SignupProperties.AddCalledOnceWithPayload` | src/presentation/controllers/signup.ts:38-42 | `add` is called exactly once, only when every check passes, with exactly name, email and the plaintext password; the confirmation is not sent |
| `SignupProperties.CreationPayloadNeverEmpty` | src/presentation/controllers/signup.ts:21-42 | every payload passed to `add` has non-empty name, email and password |
| `SignupProperties.FailedAddIsServerError` | src/presentation/controllers/signup/signup.spec.ts:216-238 | when every check passes and `add` rejects or throws, the answer is 500 `ServerError` |
| `SignupProperties.CreatedAccountReturned` | src/presentation/controllers/signup/signup.spec.ts:264-287 | when every check passes and `add` resolves with an account, the answer is 200 with that account as the body |
| `SignupProperties.OkOnlyAfterCreation` | src/presentation/controllers/signup.ts:20-47 | status 200 only when every check passed and `add` resolved with the account in the body |
| `SignupProperties.ServerErrorOnlyFromCollaborators` | src/presentation/controllers/signup.ts:33-50 | status 500 only for a well-formed request whose validator threw, or whose `add` failed after the validator accepted |
| `SignupProperties.ValidSignupScenario` | src/presentation/controllers/signup/signup.spec.ts:240-287 | the worked example: a valid request, an accepting validator and a store returning a fixed account. The answer is 200 with that account, after one validator call on the email and one `add` call with name, email and plaintext password |
| `SignupAsWritten.DecideAsWritten` | src/presentation/controllers/signup.ts:38-47 | with `add` not awaited, status 200 always carries the empty body |
| `SignupAsWritten.AgreesBeforeCreation` | src/presentation/controllers/signup.ts:20-36 | the code as written makes the same calls as the intended handler. It gives the same answer whenever some check stops the request |
| `SignupAsWritten.RejectedAddAnswers200` | src/presentation/controllers/signup.ts:38-50 | for every request that passes all checks and whose `add` rejects, the code as written answers 200 with an empty body, where the intended handler answers 500 |
| `SignupAsWritten.ThrowingAddIsServerError` | src/presentation/controllers/signup.ts:38-50 | for every request that passes all checks and whose `add` throws before returning a promise, the code as written still reaches the `catch` and answers 500 `ServerError` |
| `SignupAsWritten.SuccessBodyIsEmpty` | src/presentation/controllers/signup.ts:44-47 | when `add` resolves with an account, the code as written answers 200 with an empty body, where the intended handler returns the account |

## Left out

- A request with no body: the controller destructures `httpRequest.body` outside its `try` (src/presentation/controllers/signup.ts:18), so a missing body escapes as an exception. `Signup.SignupController.Handle` therefore requires that the body exists.
- Body values other than strings (numbers, `null`, `false`, objects) are not modelled. The body is a map from field name to string.
- Error messages ("Missing param: name" and the like): the error classes and the `badRequest`/`serverError` helpers are not part of this model. The error values are a datatype with the field name only.
- Promise scheduling: a call of `add` is one outcome value (resolved, rejected or thrown), not a suspension.
- The account-creation use case behind `AddAccount` (hash the password, then store) is not part of this model. Neither is the bcrypt adapter (a wrapper over an external library) nor the MongoDB helper and repository (database I/O). `add` is an arbitrary function of its payload.
- The email validator's matching algorithm is not shown. The validator is an arbitrary function of the email.
- Test-runner configuration (jest.config.ts).

## Findings

| source | as written | input that shows it | evidently intended | confidence | as-written member | corrected member |
|---|---|---|---|---|---|---|
| src/presentation/controllers/signup.ts:38-42 | `add` is called without `await`, so its rejection is not caught and the handler answers 200; the dropped promise then becomes an unhandled rejection outside `handle` (by default an uncaught error in Node 15 and later), which this model does not cover | a valid request whose `add` rejects | status 500 with `ServerError`, as src/presentation/controllers/signup/signup.spec.ts:216-238 expects | high; not executed | `SignupAsWritten.RejectedAddAnswers200` | `SignupProperties.FailedAddIsServerError` |
| src/presentation/controllers/signup.ts:44-47 | success answers 200 with body `{}` | a valid request whose `add` resolves with an account | status 200 with the created account as body, as src/presentation/controllers/signup/signup.spec.ts:264-287 expects | high; not executed | `SignupAsWritten.SuccessBodyIsEmpty` | `SignupProperties.CreatedAccountReturned` |
