# Assistant0 decision and formatting rules, in Dafny

Assistant0 is a demo personal-assistant chat application. A language-model
agent calls Gmail, Google Calendar, GitHub, Slack and a shop on the user's
behalf, through an identity provider's token vault and its out-of-band
purchase approval (CIBA). The token exchange, the approval flow and the agent
loop live in the identity provider's AI libraries. This project models the
small rules the application owns itself:

- `ContextDocs`: the Python knowledge-base tool. It retrieves up to 12
  nodes, asks the fine-grained authorization store whether the caller
  `can_view` each node that carries a `document_id`, and answers with the
  allowed contents joined by a blank line, or with a fixed message when
  nothing is allowed. It is written as a method with a loop, the way the
  source is, and proved against the specification functions `Allowed` and
  `Checks`. The authorization manager is a class whose `CheckRelation`
  records, in a ghost log, every question it is asked.
- `ChatRoute`: the chat endpoint's history sanitiser, which drops assistant
  turns that carry parts but no text.
- `GitHubEvents`: the GitHub events tool. It covers the payload summary, the
  projection of each event with its defaults, the page defaults, and the
  rule that an upstream 401 or 403 becomes the token-vault authorization
  error while any other error passes through unchanged.
- `LinkedAccounts`: the profile page's table of linkable providers, the
  providers still offered, the primary-account rule, the unlink action and
  the account-linking URL.
- `TokenVaultRedirect`: the "Connect" button shown when a tool needs an
  account that is not connected. It covers its defaults and the query it
  builds. JavaScript object spread is modelled for non-integer string keys: an
  extra parameter with the same name overrides a fixed one and keeps the
  fixed one's position.
- `Auth0AIConfig`, `LangchainAuth0AI`, `LlamaindexAuth0AI`: the
  connection/scope tables of both agent back ends, the purchase binding
  message, the CIBA scopes and subject, and the `onUnauthorized` message.
- `UserInfoCard`, `UserButton`: the avatar-initials fallback in its two
  variants, the missing-date text, the heading, and the logout link.
- `EnsureApiAccess`: the popup / redirect / automatic mode dispatch.
- `Prelude`: optional values, JavaScript/Python truthiness of strings,
  join and split, the decimal form of integers, and subsequences.

Several things are parameters rather than code: the vector-store retrieval,
the authorization store's relation check, the GitHub client, the
URL-parameter encoder, the locale date formatter and device detection.

## Model

| member | source | states |
|---|---|---|
| `ContextDocs.GetContextDocs` | py-llamaindex/backend/app/agents/tools/context_docs_li.py:14-31 | retrieval is asked for 12 nodes; the answer is the fixed message when no content is allowed and otherwise the allowed contents joined by "\n\n"; the questions put to the authorization manager (`AuthorizationManager.CheckRelation`, which records them) are exactly `Checks` of the retrieved nodes, in order |
| `ContextDocs.AuthorizationManager.CheckRelation` | py-llamaindex/backend/app/agents/tools/context_docs_li.py:23-25 | the answer is the authorization store's answer for (user, document id, relation), and exactly that question is appended to the log |
| `ContextDocs.AllowedAppend` | py-llamaindex/backend/app/agents/tools/context_docs_li.py:18-27 | about `Allowed`, `Checks`: each node is handled on its own and in retrieval order: the allowed contents and the checks for `a + b` are those for `a` followed by those for `b` |
| `ContextDocs.AllowedSingle` | py-llamaindex/backend/app/agents/tools/context_docs_li.py:19-27 | about `Allowed`, `Checks`: one node contributes its content exactly when it has a non-empty document id and `can_view` holds; it is checked, with its id and "can_view", exactly when it has an id |
| `ContextDocs.NoDocumentIdIgnored` | py-llamaindex/backend/app/agents/tools/context_docs_li.py:19-21 | about `Allowed`, `Checks`: a node with no document id changes neither the allowed contents nor the checks, wherever it stands |
| `ContextDocs.ChecksAreCanView` | py-llamaindex/backend/app/agents/tools/context_docs_li.py:19-25 | about `Checks`: every check asks about the caller's email, relation "can_view" and the non-empty document id of some retrieved node |
| `ContextDocs.AllowedExactly` | py-llamaindex/backend/app/agents/tools/context_docs_li.py:23-27 | about `Allowed`: the content of every admitted node is kept, and everything kept is the content of an admitted node |
| `ContextDocs.AllowedBounded` | py-llamaindex/backend/app/agents/tools/context_docs_li.py:15-27 | about `Allowed`, `Checks`: there are at most as many allowed contents as checks, and at most as many checks as retrieved nodes |
| `ContextDocs.AnswerShowsAllowed` | py-llamaindex/backend/app/agents/tools/context_docs_li.py:29-31 | about `Answer`: every allowed content occurs in the answer |
| `ChatRoute.SanitizeMembership` | src/app/api/chat/route.ts:14-18 | about `Sanitize`: a message is in the output if and only if it is in the input and is not an assistant message with non-empty parts and empty content |
| `ChatRoute.SanitizeSubsequence` | src/app/api/chat/route.ts:15-17 | about `Sanitize`: the output is an order-preserving subsequence of the input, so it is no longer |
| `ChatRoute.SanitizeKeepsComplete` | src/app/api/chat/route.ts:16 | about `Sanitize`: a history without incomplete assistant turns passes unchanged; this covers user messages and assistant messages with absent or empty parts, even when their content is empty |
| `ChatRoute.SanitizeIdempotent` | src/app/api/chat/route.ts:15-17 | about `Sanitize`: sanitising twice gives the same as sanitising once |
| `GitHubEvents.PushSummaryCountsCommits` | ts-langchain/src/lib/tools/list-gh-events.ts:9-10 | about `PayloadSummary`: the number can be read back out of a push summary "Pushed N commit(s)", and it is the length of the commits list, or 0 when the list is missing |
| `GitHubEvents.TitledSummaries` | ts-langchain/src/lib/tools/list-gh-events.ts:11-14 | about `PayloadSummary`: a pull-request or issue summary is the action, the fixed phrase, then the title; a missing action or title reads "undefined" |
| `GitHubEvents.CreateSummary` | ts-langchain/src/lib/tools/list-gh-events.ts:15-16 | about `PayloadSummary`: a create summary is "Created {ref_type}: {ref}", with an empty ref when it is missing |
| `GitHubEvents.FixedSummaries` | ts-langchain/src/lib/tools/list-gh-events.ts:17-20 | about `PayloadSummary`: star and fork summaries are fixed strings, whatever the payload |
| `GitHubEvents.OtherTypesEchoed` | ts-langchain/src/lib/tools/list-gh-events.ts:21-22 | about `PayloadSummary`: any other event type is summarised as the type string itself |
| `GitHubEvents.FormatEvent` | ts-langchain/src/lib/tools/list-gh-events.ts:49-64 | id, type, date and visibility are copied; repo name and actor login are never empty, and are 'Unknown' when they are missing or empty; missing URLs become '' |
| `GitHubEvents.FormatEvents` | ts-langchain/src/lib/tools/list-gh-events.ts:49-64 | the formatted list has the length of the fetched list, and element i is the formatting of fetched event i |
| `GitHubEvents.ClassifyFailureCases` | ts-langchain/src/lib/tools/list-gh-events.ts:72-88 | about `ClassifyFailure`: a failure becomes the authorization error if and only if it is a RequestError with status 401 or 403; the two statuses get two distinct messages; every other error is rethrown unchanged |
| `GitHubEvents.ListedPage` | ts-langchain/src/lib/tools/list-gh-events.ts:27-71 | about `ListGitHubEvents`: GitHub is asked with page size 30 and page 1 unless they are given; a successful call lists every fetched event, formatted and in order, with `total_events` equal to their number, and echoes page and page size |
| `GitHubEvents.FailedFetchClassified` | ts-langchain/src/lib/tools/list-gh-events.ts:33-88 | about `ListGitHubEvents`: a failing GitHub call yields the classification of its error, never a list |
| `LinkedAccounts.ProviderTable` | ts-vercel-ai/src/components/auth0/profile/linked-accounts-card.tsx:25-44 | about `Providers`, `GetProviderInfo`: the table keys are google and github, in that order; their connection ids are google-oauth2 and github; a provider has info exactly when it is a key |
| `LinkedAccounts.OfferFromExactly` | ts-vercel-ai/src/components/auth0/profile/linked-accounts-card.tsx:61-63 | about `OfferFrom`: the filter keeps a key if and only if no account uses it as provider and it is not 'auth0', and keeps the kept keys in order |
| `LinkedAccounts.AvailableProvidersExactly` | ts-vercel-ai/src/components/auth0/profile/linked-accounts-card.tsx:61-63 | about `AvailableProviders`: the offered providers are exactly the table keys that no linked account uses, in table order; auth0 is never offered; no linked provider is offered |
| `LinkedAccounts.UnlinkOnlySocialNonAuth0` | ts-vercel-ai/src/components/auth0/profile/linked-accounts-card.tsx:94-125 | about `UnlinkAction`, `IsPrimary`: the unlink action exists exactly for social accounts whose provider is not auth0, i.e. the non-primary ones, and passes (provider, user_id) |
| `LinkedAccounts.RenderAccountsExactly` | ts-vercel-ai/src/components/auth0/profile/linked-accounts-card.tsx:92-133 | about `RenderAccounts`, `RenderAccount`: the account list renders if and only if every linked provider is a table key; then there is one row per account, marked primary exactly by the primary rule, with an unlink action exactly for the others |
| `LinkedAccounts.OfferedLinksTargets` | ts-vercel-ai/src/components/auth0/profile/linked-accounts-card.tsx:65-158 | about `OfferedLinks`, `AccountLinkingHref`: each offered provider links to "/auth/login?" plus the encoding of the linking scope, then `requested_connection` (google-oauth2 or github), then the ID-token hint |
| `LinkedAccounts.OfferedLinksAt` | ts-vercel-ai/src/components/auth0/profile/linked-accounts-card.tsx:149-158 | about `OfferedLinks`: there is one link per offered provider, and link i is the account-linking href for the connection id of provider i |
| `TokenVaultRedirect.PutProperties` | ts-vercel-ai/src/components/auth0-ai/TokenVault/redirect.tsx:26 | about `Put`: assigning one property sets that key, leaves every other key's value alone, keeps an existing key in its place or appends a new one at the end, and keeps keys unique |
| `TokenVaultRedirect.SpreadKeys` | ts-vercel-ai/src/components/auth0-ai/TokenVault/redirect.tsx:20-27 | about `Spread`: after the spread the original keys come first and in order; the keys are exactly those of both objects, each once |
| `TokenVaultRedirect.SpreadGet` | ts-vercel-ai/src/components/auth0-ai/TokenVault/redirect.tsx:20-27 | about `Spread`: after the spread, a key of the extra parameters has the extra value, and every other key keeps its value |
| `TokenVaultRedirect.Defaults` | ts-vercel-ai/src/components/auth0-ai/TokenVault/redirect.tsx:9-18 | about `ConnectPath`, `ReturnTo`, `ActionLabel`: connectPath defaults to '/auth/connect', returnTo to the current pathname and the label to 'Connect'; only missing values are replaced |
| `TokenVaultRedirect.SearchParamsContents` | ts-vercel-ai/src/components/auth0-ai/TokenVault/redirect.tsx:20-27 | about `SearchParams`: the query keys are connection, returnTo, scope, then the new extra keys, each once; extra keys override; connection and returnTo are always present; scope is the required scopes joined by single spaces unless overridden |
| `TokenVaultRedirect.ScopeRoundTrip` | ts-vercel-ai/src/components/auth0-ai/TokenVault/redirect.tsx:23 | about `SearchParams`: when not overridden, the scope parameter splits at spaces back into the required scopes |
| `TokenVaultRedirect.ConnectTargetShape` | ts-vercel-ai/src/components/auth0-ai/TokenVault/redirect.tsx:29-30 | about `ConnectTarget`: the target is connectPath on the current origin, with query exactly the encoded parameters |
| `Prelude.IntToStringRoundTrip` | ts-langchain/src/lib/auth0-ai.ts:61 | about `IntToString`: the decimal rendering of an integer quantity, as `${qty}` writes it, is non-empty, has no space, and parses back to the same integer |
| `Auth0AIConfig.BindingMessageParses` | ts-langchain/src/lib/auth0-ai.ts:61 | about `ParseBindingMessage`: product and quantity can be read back out of "Do you want to buy {qty} {product}" |
| `LangchainAuth0AI.ConnectionTable` | ts-langchain/src/lib/auth0-ai.ts:19-50 | the Gmail-read, Gmail-write and Calendar wrappers bind google-oauth2 with openid and one Google scope each (gmail.readonly, gmail.compose, calendar.events); GitHub asks for no scopes; Slack binds sign-in-with-slack with channels:read and groups:read |
| `LangchainAuth0AI.UserIdPath` | ts-langchain/src/lib/auth0-ai.ts:58-60 | about `UserId`: the CIBA subject is `configurable._credentials.user.sub` when the whole path exists, and a subject is found only through that path |
| `LangchainAuth0AI.BindingMessageNamesPurchase` | ts-langchain/src/lib/auth0-ai.ts:61 | about `BindingMessage`: the binding message determines the quantity and the product: two purchases with the same message are the same purchase |
| `LangchainAuth0AI.AsyncAuthorizationScopes` | ts-langchain/src/lib/auth0-ai.ts:57-63 | about `AsyncAuthorization`: CIBA asks for exactly openid and product:buy, on the audience in SHOP_API_AUDIENCE |
| `LangchainAuth0AI.OnUnauthorizedCases` | ts-langchain/src/lib/auth0-ai.ts:93-99 | about `OnUnauthorized`: an access-denied interrupt yields 'The user has denied the request'; any other error yields its own message |
| `LlamaindexAuth0AI.ConnectionTable` | ts-llamaindex/src/lib/auth0-ai.ts:12-40 | the same connection/scope table in the LlamaIndex back end |
| `LlamaindexAuth0AI.BindingMessageNamesPurchase` | ts-llamaindex/src/lib/auth0-ai.ts:48 | about `BindingMessage`: the binding message reads back as the product and the quantity |
| `LlamaindexAuth0AI.OnUnauthorizedCases` | ts-llamaindex/src/lib/auth0-ai.ts:82-87 | about `OnUnauthorized`: the denial message for an access-denied interrupt, and the error's own message otherwise |
| `LlamaindexAuth0AI.UserIdIsSessionSubject` | ts-llamaindex/src/lib/auth0-ai.ts:44-47 | about `UserId`: the CIBA subject is the session user's `sub`, and undefined without a session user |
| `LlamaindexAuth0AI.VariantsAgree` | ts-llamaindex/src/lib/auth0-ai.ts:19-87 | about `BindingMessage`, `OnUnauthorized`, `AsyncAuthorization`: both back ends bind the same table, build the same binding message, give the same unauthorized message and the same CIBA scopes; the audience comes from AUDIENCE here and from SHOP_API_AUDIENCE in LangChain |
| `UserInfoCard.AvatarFallback` | ts-vercel-ai/src/components/auth0/profile/user-info-card.tsx:8-23 | the fallback is always one or two characters |
| `UserInfoCard.AvatarFallbackCases` | ts-vercel-ai/src/components/auth0/profile/user-info-card.tsx:14-22 | about `AvatarFallback`: the two initials when given and family names are both non-empty; otherwise the nickname's first character; otherwise the name's first character, or 'U' when the name is missing or empty |
| `UserInfoCard.FormatDate` | ts-vercel-ai/src/components/auth0/profile/user-info-card.tsx:25-39 | a missing or empty date reads 'N/A'; otherwise the locale formatting, or 'N/A' when it throws |
| `UserInfoCard.DisplayName` | ts-vercel-ai/src/components/auth0/profile/user-info-card.tsx:55 | the heading is never empty: the name, else the nickname, else 'User' |
| `UserButton.AgreesWithInfoCard` | src/components/auth0/user-button.tsx:18-33 | about `UserButton.AvatarFallback`: the header's fallback yields text exactly when one of its branches finds a non-empty claim, and then the same text as the profile card; with no usable claim it throws for a missing name, and yields undefined for an empty one, where the card shows 'U' |
| `UserButton.LogoutHref` | src/components/auth0/user-button.tsx:38-47 | the logout link is '/api/auth/logout' unless a logoutUrl is given. The link itself is at line 82 |
| `EnsureApiAccess.ModeDispatch` | ts-vercel-ai/src/components/auth0-ai/federated-connections/ensure-api-access.tsx:7-28 | about `EnsureAPIAccess`, `Displayed`: 'popup' shows only the popup and 'redirect' only the redirect, on any device; any other mode, or none, shows the popup on browsers and the redirect on mobile devices; every view gets the props unchanged |

## Left out

- The gate itself is not modelled: token exchange and refresh, CIBA polling, and interruption resumption. These are the identity provider's library calls, whose code is not part of this model. Also left out are the `onAuthorizationRequest` callbacks, which wait on a promise and log, and the `console.error` that LangChain's `onUnauthorized` makes before answering.
- Retrieval (vector store, embeddings) is a function parameter of `ContextDocs.GetContextDocs`, and the authorization store's answers are a function held by the `AuthorizationManager`. So each is assumed to answer the same way for the same question. The model does not enforce that retrieval returns at most the 12 nodes it is asked for.
- `await` and asynchrony are not modelled. Each awaited call is one call of a parameter.
- ContextDocs: metadata values are modelled as strings. A non-string `document_id` is outside the model.
- GitHubEvents: the payload is modelled as a record that is always present. A missing payload would throw in the first four cases, and GitHub always sends one. JavaScript `null` fields are modelled like missing ones, but `${null}` would read "null", not "undefined".
- GitHubEvents: the zod schema's range checks (page size 1 to 100, page at least 1) are applied by the tool framework before the body runs, so they are not modelled. So are the `console.log` of errors and the dynamic import of the client.
- GitHubEvents: the GitHub client's two calls (the authenticated user, then the events) are folded into one `fetchEvents` parameter. Errors from the token lookup happen outside the `try` and are passed on unchanged.
- Number formatting: `${n}` is modelled for integers only. JavaScript uses exponent form from 1e21 up, and fractional quantities are not modelled.
- The exact percent-encoding done by `URLSearchParams` is a parameter (`encode`). So is URL resolution: `new URL(path, origin)` is recorded as the pair (origin, path). An absolute path overriding the origin is not modelled.
- TokenVaultRedirect: JavaScript orders integer-like keys before all other keys. Extra parameters with such keys are outside the model, which keeps keys in the order they were written. The final `window.location.href` navigation is not modelled.
- LinkedAccounts: keys that `PROVIDERS` inherits from `Object.prototype` (such as `constructor`) are not modelled. The model looks up own keys only. Icons, colours and the rest of the rendering are left out.
- User claims are modelled as optional strings. `s[0]` is taken to be the first character, whereas JavaScript gives the first UTF-16 unit. Non-string claim values are outside the model.
- EnsureApiAccess: device detection is the two flags `isBrowser` and `isMobile`. The props other than `mode`, `connection` and `scopes` are not modelled. They are forwarded unchanged like these.
- Not modelled: the vendor tool wrappers (Google Calendar, Google Tasks, GitHub repositories, Slack, SerpAPI), the agent and streaming wiring, the server I/O, and the React state and dialogs. They are thin wrappers over vendor clients or framework code, and their one owned rule (401 means authorization needed) is the one modelled in `GitHubEvents`.
