/** The LlamaIndex back end's authorization configuration: the same
    connection table and callbacks as the LangChain one, but the token
    vault is fed the session's refresh token, the CIBA subject comes from
    the session user, and the audience from a different variable. */
module LlamaindexAuth0AI {
  import opened Prelude
  import opened Auth0AIConfig
  import LangchainAuth0AI

  const GmailRead: ConnectionBinding := ConnectionBinding("google-oauth2", ["openid", "https://www.googleapis.com/auth/gmail.readonly"])
  const GmailWrite: ConnectionBinding := ConnectionBinding("google-oauth2", ["openid", "https://www.googleapis.com/auth/gmail.compose"])
  const Calendar: ConnectionBinding := ConnectionBinding("google-oauth2", ["openid", "https://www.googleapis.com/auth/calendar.events"])
  const GitHubConnection: ConnectionBinding := ConnectionBinding("github", [])
  const Slack: ConnectionBinding := ConnectionBinding("sign-in-with-slack", ["channels:read", "groups:read"])

  /** The session user as `getUser()` returns it. */
  datatype SessionUser = SessionUser(sub: Option<string>)

  /** `userID`: `user?.sub`. */
  function UserId(user: Option<SessionUser>): Option<string> {
    if user.Some? then user.value.sub else None
  }

  function BindingMessage(product: string, qty: int): string {
    BindingPrefix + IntToString(qty) + " " + product
  }

  function AsyncAuthorization(env: map<string, string>): AsyncAuthorizationConfig {
    AsyncAuthorizationConfig(["openid", "product:buy"], if "AUDIENCE" in env then Some(env["AUDIENCE"]) else None)
  }

  function OnUnauthorized(e: AuthError): string {
    if e.accessDenied then DeniedMessage else e.message
  }

  lemma ConnectionTable()
    ensures GoogleBinding(GmailRead) && GoogleBinding(GmailWrite) && GoogleBinding(Calendar)
    ensures [GmailRead.scopes[1], GmailWrite.scopes[1], Calendar.scopes[1]]
            == [GoogleScopePrefix + "gmail.readonly", GoogleScopePrefix + "gmail.compose", GoogleScopePrefix + "calendar.events"]
    ensures GitHubConnection == ConnectionBinding("github", [])
    ensures Slack == ConnectionBinding("sign-in-with-slack", ["channels:read", "groups:read"])
  {
    assert GoogleScopePrefix + "gmail.readonly" == "https://www.googleapis.com/auth/gmail.readonly";
    assert GoogleScopePrefix + "gmail.compose" == "https://www.googleapis.com/auth/gmail.compose";
    assert GoogleScopePrefix + "calendar.events" == "https://www.googleapis.com/auth/calendar.events";
  }

  lemma BindingMessageNamesPurchase(product: string, qty: int)
    ensures ParseBindingMessage(BindingMessage(product, qty)) == Some((product, qty))
  {
    BindingMessageParses(product, qty);
  }

  lemma OnUnauthorizedCases(e: AuthError)
    ensures e.accessDenied ==> OnUnauthorized(e) == DeniedMessage
    ensures !e.accessDenied ==> OnUnauthorized(e) == e.message
  {
  }

  lemma UserIdIsSessionSubject(user: Option<SessionUser>)
    ensures user.None? ==> UserId(user).None?
    ensures user.Some? ==> UserId(user) == user.value.sub
  {
  }

  /** The two back ends bind the same connections and scopes, build the
      same binding message, classify failures alike and ask for the same
      CIBA scopes; they differ in where the audience is read from. */
  lemma VariantsAgree(product: string, qty: int, e: AuthError, env: map<string, string>)
    ensures [GmailRead, GmailWrite, Calendar, GitHubConnection, Slack]
            == [LangchainAuth0AI.GmailRead, LangchainAuth0AI.GmailWrite, LangchainAuth0AI.Calendar,
                LangchainAuth0AI.GitHubConnection, LangchainAuth0AI.Slack]
    ensures BindingMessage(product, qty) == LangchainAuth0AI.BindingMessage(product, qty)
    ensures OnUnauthorized(e) == LangchainAuth0AI.OnUnauthorized(e)
    ensures AsyncAuthorization(env).scopes == LangchainAuth0AI.AsyncAuthorization(env).scopes
    ensures AsyncAuthorization(env).audience == (if "AUDIENCE" in env then Some(env["AUDIENCE"]) else None)
    ensures LangchainAuth0AI.AsyncAuthorization(env).audience
            == (if "SHOP_API_AUDIENCE" in env then Some(env["SHOP_API_AUDIENCE"]) else None)
  {
  }
}
