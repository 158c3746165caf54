/** The profile page's linked-accounts card: a fixed table of social
    providers that can be linked, the rule for which linked identity is the
    primary one (it cannot be unlinked), the providers still offered for
    linking, and the login URL that starts account linking. The
    URL-parameter encoder is a parameter. */
module LinkedAccounts {
  import opened Prelude

  datatype ProviderInfo = ProviderInfo(name: string, icon: string, color: string, bgColor: string, id: string)

  /** An identity linked to the user's profile. */
  datatype LinkedIdentity = LinkedIdentity(connection: string, provider: string, userId: string, isSocial: bool)

  /** `PROVIDERS`, its keys in declaration order. */
  const Providers: seq<(string, ProviderInfo)> := [
    ("google", ProviderInfo("Google", "🔗", "text-red-400", "bg-red-100/10", "google-oauth2")),
    ("github", ProviderInfo("GitHub", "🔗", "text-gray-400", "bg-gray-100/10", "github"))
  ]

  const LinkingScope: string := "link_account openid profile offline_access"

  /** `getProviderInfo`: `undefined` for a provider outside the table. */
  function GetProviderInfo(provider: string): Option<ProviderInfo> {
    Get(Providers, provider)
  }

  lemma ProviderTable()
    ensures KeysOf(Providers) == ["google", "github"]
    ensures GetProviderInfo("google").Some? && GetProviderInfo("google").value.id == "google-oauth2"
    ensures GetProviderInfo("github").Some? && GetProviderInfo("github").value.id == "github"
    ensures forall p :: GetProviderInfo(p).Some? <==> p in KeysOf(Providers)
  {
  }

  predicate Linked(provider: string, accounts: seq<LinkedIdentity>) {
    exists i :: 0 <= i < |accounts| && accounts[i].provider == provider
  }

  function OfferFrom(keys: seq<string>, accounts: seq<LinkedIdentity>): seq<string>
    decreases |keys|
  {
    if |keys| == 0 then []
    else if !Linked(keys[0], accounts) && keys[0] != "auth0" then [keys[0]] + OfferFrom(keys[1..], accounts)
    else OfferFrom(keys[1..], accounts)
  }

  /** `availableProviders`. */
  function AvailableProviders(accounts: seq<LinkedIdentity>): seq<string> {
    OfferFrom(KeysOf(Providers), accounts)
  }

  lemma {:induction false} OfferFromExactly(keys: seq<string>, accounts: seq<LinkedIdentity>)
    ensures forall p :: p in OfferFrom(keys, accounts) <==> p in keys && !Linked(p, accounts) && p != "auth0"
    ensures IsSubsequence(OfferFrom(keys, accounts), keys)
    decreases |keys|
  {
    if |keys| > 0 {
      OfferFromExactly(keys[1..], accounts);
      SubsequenceCons(keys[0], OfferFrom(keys[1..], accounts), keys[1..]);
      assert keys == [keys[0]] + keys[1..];
    }
  }

  /** The offered providers are exactly the table's keys that no linked
      account uses, in table order; 'auth0' is never offered, and nothing
      offered is already linked. */
  lemma AvailableProvidersExactly(accounts: seq<LinkedIdentity>)
    ensures forall p :: p in AvailableProviders(accounts) <==>
                        p in ["google", "github"] && forall i :: 0 <= i < |accounts| ==> accounts[i].provider != p
    ensures IsSubsequence(AvailableProviders(accounts), ["google", "github"])
    ensures "auth0" !in AvailableProviders(accounts)
    ensures forall i :: 0 <= i < |accounts| ==> accounts[i].provider !in AvailableProviders(accounts)
  {
    ProviderTable();
    OfferFromExactly(KeysOf(Providers), accounts);
  }

  /** `isPrimary`: the account is Auth0's own, or not a social identity. */
  predicate IsPrimary(account: LinkedIdentity) {
    account.provider == "auth0" || !account.isSocial
  }

  /** The unlink button of an account, as the arguments it passes to
      `onUnlinkAccount`; absent for the primary account. */
  function UnlinkAction(account: LinkedIdentity): Option<(string, string)> {
    if !IsPrimary(account) then Some((account.provider, account.userId)) else None
  }

  lemma UnlinkOnlySocialNonAuth0(account: LinkedIdentity)
    ensures UnlinkAction(account).Some? <==> account.provider != "auth0" && account.isSocial
    ensures UnlinkAction(account).Some? ==> UnlinkAction(account).value == (account.provider, account.userId)
  {
  }

  /** A rendered entry of the connected-accounts list. */
  datatype AccountRow = AccountRow(name: string, primary: bool, unlink: Option<(string, string)>)

  /** Rendering fails (reading `.name` of `undefined`) for a provider that
      is not in the table. */
  function RenderAccount(account: LinkedIdentity): Option<AccountRow> {
    var info := GetProviderInfo(account.provider);
    if info.None? then None
    else Some(AccountRow(info.value.name, IsPrimary(account), UnlinkAction(account)))
  }

  /** `linkedAccounts.map(...)`: the whole list fails if any entry does. */
  function RenderAccounts(accounts: seq<LinkedIdentity>): Option<seq<AccountRow>>
    decreases |accounts|
  {
    if |accounts| == 0 then Some([])
    else
      var head := RenderAccount(accounts[0]);
      var tail := RenderAccounts(accounts[1..]);
      if head.None? || tail.None? then None else Some([head.value] + tail.value)
  }

  /** The list renders if and only if every linked provider is a table key,
      and then it has one row per account, primary exactly when
      `IsPrimary`, with an unlink action exactly for the others. */
  lemma {:induction false} RenderAccountsExactly(accounts: seq<LinkedIdentity>)
    ensures RenderAccounts(accounts).Some? <==> forall i :: 0 <= i < |accounts| ==> accounts[i].provider in ["google", "github"]
    ensures RenderAccounts(accounts).Some? ==>
              |RenderAccounts(accounts).value| == |accounts|
              && forall i :: 0 <= i < |accounts| ==>
                   RenderAccounts(accounts).value[i].primary == IsPrimary(accounts[i])
                   && (RenderAccounts(accounts).value[i].unlink.Some? <==> !IsPrimary(accounts[i]))
    decreases |accounts|
  {
    ProviderTable();
    if |accounts| > 0 {
      RenderAccountsExactly(accounts[1..]);
      if RenderAccounts(accounts).Some? {
        var rows := RenderAccounts(accounts).value;
        forall i | 0 <= i < |accounts|
          ensures rows[i].primary == IsPrimary(accounts[i]) && (rows[i].unlink.Some? <==> !IsPrimary(accounts[i]))
        {
          if i > 0 {
            assert rows[i] == RenderAccounts(accounts[1..]).value[i - 1];
            assert accounts[i] == accounts[1..][i - 1];
          }
        }
      }
      if forall i :: 0 <= i < |accounts| ==> accounts[i].provider in ["google", "github"] {
        assert forall i :: 0 <= i < |accounts[1..]| ==> accounts[1..][i] == accounts[i + 1];
      } else {
        var i :| 0 <= i < |accounts| && accounts[i].provider !in ["google", "github"];
        if i > 0 {
          assert accounts[1..][i - 1] == accounts[i];
        }
      }
    }
  }

  /** The search parameters of the linking URL, in order. */
  function LinkingParams(idTokenHint: string, requestedConnection: string): seq<(string, string)> {
    [("scope", LinkingScope), ("requested_connection", requestedConnection), ("id_token_hint", idTokenHint)]
  }

  /** `generateAccountLinkingHref`. */
  function AccountLinkingHref(encode: seq<(string, string)> -> string, idTokenHint: string,
                              requestedConnection: string): string {
    "/auth/login?" + encode(LinkingParams(idTokenHint, requestedConnection))
  }

  /** The links offered on the card, one per available provider. */
  function OfferedLinks(encode: seq<(string, string)> -> string, idTokenHint: string,
                        offered: seq<string>): seq<string>
    decreases |offered|
  {
    if |offered| == 0 then []
    else
      var info := GetProviderInfo(offered[0]);
      [AccountLinkingHref(encode, idTokenHint, if info.Some? then info.value.id else "")]
        + OfferedLinks(encode, idTokenHint, offered[1..])
  }

  /** Each offered link logs in with the linking scope, asks for the
      provider's connection id from the table (google-oauth2 for Google,
      github for GitHub) and passes the ID-token hint. */
  lemma {:induction false} OfferedLinksTargets(encode: seq<(string, string)> -> string, idTokenHint: string,
                                               accounts: seq<LinkedIdentity>)
    ensures var offered := AvailableProviders(accounts);
            var links := OfferedLinks(encode, idTokenHint, offered);
            && |links| == |offered|
            && forall i :: 0 <= i < |offered| ==>
                 links[i] == "/auth/login?" + encode([("scope", "link_account openid profile offline_access"),
                                                       ("requested_connection", if offered[i] == "google" then "google-oauth2" else "github"),
                                                       ("id_token_hint", idTokenHint)])
  {
    var offered := AvailableProviders(accounts);
    AvailableProvidersExactly(accounts);
    OfferedLinksAt(encode, idTokenHint, offered);
    ProviderTable();
    forall i | 0 <= i < |offered| ensures offered[i] in ["google", "github"] {
      assert offered[i] in offered;
    }
  }

  lemma {:induction false} OfferedLinksAt(encode: seq<(string, string)> -> string, idTokenHint: string, offered: seq<string>)
    ensures |OfferedLinks(encode, idTokenHint, offered)| == |offered|
    ensures forall i :: 0 <= i < |offered| ==>
              OfferedLinks(encode, idTokenHint, offered)[i]
              == AccountLinkingHref(encode, idTokenHint,
                                    if GetProviderInfo(offered[i]).Some? then GetProviderInfo(offered[i]).value.id else "")
    decreases |offered|
  {
    if |offered| > 0 {
      OfferedLinksAt(encode, idTokenHint, offered[1..]);
      forall i | 0 < i < |offered| ensures offered[1..][i - 1] == offered[i] { }
    }
  }
}
