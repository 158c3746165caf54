/** The LangChain back end's authorization configuration. */
module LangchainAuth0AI {
  import opened Prelude
  import opened Auth0AIConfig

  const GmailRead: ConnectionBinding := ConnectionBinding("google-oauth2", ["openid", "https://www.googleapis.com/auth/gmail.readonly"])
  const GmailWrite: ConnectionBinding := ConnectionBinding("google-oauth2", ["openid", "https://www.googleapis.com/auth/gmail.compose"])
  const Calendar: ConnectionBinding := ConnectionBinding("google-oauth2", ["openid", "https://www.googleapis.com/auth/calendar.events"])
  /** GitHub scopes are set on the GitHub app, not requested here. */
  const GitHubConnection: ConnectionBinding := ConnectionBinding("github", [])
  const Slack: ConnectionBinding := ConnectionBinding("sign-in-with-slack", ["channels:read", "groups:read"])

  /** The table of tool wrappers. */
  lemma ConnectionTable()
    ensures GoogleBinding(GmailRead) && GoogleBinding(GmailWrite) && GoogleBinding(Calendar)
    ensures GmailRead.scopes[1] == GoogleScopePrefix + "gmail.readonly"
    ensures GmailWrite.scopes[1] == GoogleScopePrefix + "gmail.compose"
    ensures Calendar.scopes[1] == GoogleScopePrefix + "calendar.events"
    ensures GitHubConnection.connection == "github" && GitHubConnection.scopes == []
    ensures Slack.connection == "sign-in-with-slack" && Slack.scopes == ["channels:read", "groups:read"]
  {
  }

  datatype CredentialsUser = CredentialsUser(sub: Option<string>)
  datatype Credentials = Credentials(user: Option<CredentialsUser>)
  datatype Configurable = Configurable(credentials: Option<Credentials>)
  /** The parts of the LangGraph run configuration that `userID` reads. */
  datatype RunnableConfig = RunnableConfig(configurable: Option<Configurable>)

  /** `userID`: `config?.configurable?._credentials?.user?.sub`. */
  function UserId(config: Option<RunnableConfig>): Option<string> {
    if config.Some? && config.value.configurable.Some?
       && config.value.configurable.value.credentials.Some?
       && config.value.configurable.value.credentials.value.user.Some?
    then config.value.configurable.value.credentials.value.user.value.sub
    else None
  }

  /** The user id is the credentials' subject when the whole path exists,
      and undefined as soon as any link is missing. */
  lemma UserIdPath(sub: Option<string>, config: Option<RunnableConfig>)
    ensures UserId(Some(RunnableConfig(Some(Configurable(Some(Credentials(Some(CredentialsUser(sub))))))))) == sub
    ensures UserId(config).Some? ==> exists u :: config == Some(RunnableConfig(Some(Configurable(Some(Credentials(Some(u)))))))
                                            && u.sub == UserId(config)
  {
  }

  /** `bindingMessage`. */
  function BindingMessage(product: string, qty: int): string {
    BindingPrefix + IntToString(qty) + " " + product
  }

  lemma BindingMessageNamesPurchase(product: string, qty: int)
    ensures ParseBindingMessage(BindingMessage(product, qty)) == Some((product, qty))
    ensures forall p, q :: BindingMessage(p, q) == BindingMessage(product, qty) ==> p == product && q == qty
  {
    forall p, q ensures ParseBindingMessage(BindingMessage(p, q)) == Some((p, q)) {
      BindingMessageParses(p, q);
    }
  }

  /** The CIBA options: scopes openid and product:buy, audience from the
      environment (undefined when unset). */
  function AsyncAuthorization(env: map<string, string>): AsyncAuthorizationConfig {
    AsyncAuthorizationConfig(["openid", "product:buy"],
                             if "SHOP_API_AUDIENCE" in env then Some(env["SHOP_API_AUDIENCE"]) else None)
  }

  /** Purchases are approved for exactly the scopes openid and
      product:buy, on the configured shop audience. */
  lemma AsyncAuthorizationScopes(env: map<string, string>)
    ensures AsyncAuthorization(env).scopes == ["openid", "product:buy"]
    ensures "SHOP_API_AUDIENCE" in env ==> AsyncAuthorization(env).audience == Some(env["SHOP_API_AUDIENCE"])
    ensures "SHOP_API_AUDIENCE" !in env ==> AsyncAuthorization(env).audience.None?
  {
  }

  /** `onUnauthorized`. */
  function OnUnauthorized(e: AuthError): string {
    if e.accessDenied then DeniedMessage else e.message
  }

  lemma OnUnauthorizedCases(e: AuthError)
    ensures e.accessDenied ==> OnUnauthorized(e) == DeniedMessage
    ensures !e.accessDenied ==> OnUnauthorized(e) == e.message
  {
  }
}
