/** `FacebookAccountsRawEndpoint`: builds the request for the accounts calls. */
module AccountsRaw {
  import opened Wrappers
  import opened Http

  /** The raw endpoint; `client` is set once, when the endpoint is made. */
  datatype FacebookAccountsRawEndpoint = FacebookAccountsRawEndpoint(client: OAuthClient)

  /** The one path both overloads request. */
  const AccountsPath: string := "/me/accounts"

  /** `GetAccounts()`: the fixed path `/me/accounts`, no options. */
  function GetAccounts(raw: FacebookAccountsRawEndpoint): (r: Result<Request, Error>)
    ensures r == Success(Request(raw.client, "/me/accounts", None))
  {
    Success(Request(raw.client, AccountsPath, None))
  }

  /**
   * `GetAccounts(options)`: null options fail with `ArgumentNullException("options")`;
   * otherwise the same `/me/accounts` path with the options forwarded unchanged.
   */
  function GetAccountsWith(raw: FacebookAccountsRawEndpoint, options: Option<AccountsOptions>): (r: Result<Request, Error>)
    ensures options.None? ==> r == Failure(ArgumentNull("options"))
    ensures options.Some? ==> r == Success(Request(raw.client, "/me/accounts", Some(AccountsQuery(options.value))))
  {
    if options.None? then Failure(ArgumentNull("options"))
    else Success(Request(raw.client, AccountsPath, Some(AccountsQuery(options.value))))
  }

  /** The two overloads target the same client and path and differ only in the options attached. */
  lemma OverloadsShareTarget(raw: FacebookAccountsRawEndpoint, options: AccountsOptions)
    ensures var a, b := GetAccounts(raw).value, GetAccountsWith(raw, Some(options)).value;
      a.client == b.client && a.path == b.path && a.options.None? && b.options == Some(AccountsQuery(options))
  {
  }
}
