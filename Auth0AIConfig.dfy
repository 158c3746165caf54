/** What the two agent back ends (LangChain and LlamaIndex) hand to the
    identity provider's AI library: which connection and scopes each tool
    wrapper asks the token vault for, the purchase-approval (CIBA) request
    with its binding message, and the message given back to the agent when
    authorization fails. The token exchange and the approval flow
    themselves belong to that library and are not modelled. */
module Auth0AIConfig {
  import opened Prelude

  /** The arguments of one `withConnection(connection, scopes)` wrapper. */
  datatype ConnectionBinding = ConnectionBinding(connection: string, scopes: seq<string>)

  /** The static part of the `withAsyncAuthorization` options. */
  datatype AsyncAuthorizationConfig = AsyncAuthorizationConfig(scopes: seq<string>, audience: Option<string>)

  /** An error reaching `onUnauthorized`: whether it is an
      `AccessDeniedInterrupt` (or a subclass), and its message. */
  datatype AuthError = AuthError(accessDenied: bool, message: string)

  const GoogleScopePrefix: string := "https://www.googleapis.com/auth/"
  const DeniedMessage: string := "The user has denied the request"
  const BindingPrefix: string := "Do you want to buy "

  predicate IsGoogleScope(s: string) {
    |s| > |GoogleScopePrefix| && s[..|GoogleScopePrefix|] == GoogleScopePrefix
  }

  /** A Google connection asks for `openid` plus exactly one Google API scope. */
  predicate GoogleBinding(b: ConnectionBinding) {
    b.connection == "google-oauth2" && |b.scopes| == 2 && b.scopes[0] == "openid" && IsGoogleScope(b.scopes[1])
  }

  /** Position of the first `c` in `s`. */
  function IndexOf(s: string, c: char): Option<nat>
    decreases |s|
  {
    if |s| == 0 then None
    else if s[0] == c then Some(0)
    else var r := IndexOf(s[1..], c); if r.Some? then Some(r.value + 1) else None
  }

  lemma {:induction false} IndexOfFirst(a: string, c: char, b: string)
    requires c !in a
    ensures IndexOf(a + [c] + b, c) == Some(|a|)
    decreases |a|
  {
    if |a| > 0 {
      assert (a + [c] + b)[1..] == a[1..] + [c] + b;
      IndexOfFirst(a[1..], c, b);
    }
  }

  /** Reads product and quantity back out of a binding message. */
  function ParseBindingMessage(m: string): Option<(string, int)> {
    if |m| >= |BindingPrefix| && m[..|BindingPrefix|] == BindingPrefix then
      var rest := m[|BindingPrefix|..];
      var k := IndexOf(rest, ' ');
      if k.Some? && k.value < |rest| then
        var qty := ParseInt(rest[..k.value]);
        if qty.Some? then Some((rest[k.value + 1..], qty.value)) else None
      else None
    else None
  }

  /** A message of the shape `Do you want to buy {qty} {product}` names
      exactly one purchase: the user approves what the agent will buy. */
  lemma BindingMessageParses(product: string, qty: int)
    ensures ParseBindingMessage(BindingPrefix + IntToString(qty) + " " + product) == Some((product, qty))
  {
    var q := IntToString(qty);
    IntToStringRoundTrip(qty);
    var rest := q + [' '] + product;
    var m := BindingPrefix + q + " " + product;
    assert m == BindingPrefix + rest;
    assert m[..|BindingPrefix|] == BindingPrefix;
    assert m[|BindingPrefix|..] == rest;
    IndexOfFirst(q, ' ', product);
    assert rest[..|q|] == q;
    assert rest[|q| + 1..] == product;
  }
}
