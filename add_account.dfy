/**
 * The account-creation use case as the signup handler sees it: the payload it
 * sends, the account it gets back, and the ways the call can end.
 */
module AddAccount {

  /** The creation payload `{name, email, password}`; the password is still plaintext. */
  datatype AddAccountModel = AddAccountModel(name: string, email: string, password: string)

  /** The created account, with the identifier the store assigned. */
  datatype AccountModel = AccountModel(id: string, name: string, email: string, password: string)

  /**
   * How one call of `add` ends. `add` returns a promise: it can resolve with
   * the created account, be rejected later, or throw before returning one.
   * Awaiting the promise makes the last two the same failure.
   */
  datatype AddOutcome =
    | Resolves(account: AccountModel)
    | Rejects
    | ThrowsSynchronously
}
