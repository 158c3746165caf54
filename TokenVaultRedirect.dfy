/** The "Connect" prompt shown when a tool needs a third-party account that
    the user has not connected: clicking it sends the browser to the
    application's connect endpoint with the connection, the page to come
    back to, the scopes the tool requires and any extra authorization
    parameters. The URL-parameter encoder is a parameter, and the final
    navigation (`window.location.href = ...`) is not modelled. */
module TokenVaultRedirect {
  import opened Prelude

  /** The own string-keyed properties of a JavaScript object, in property
      order. */
  type Entries = seq<(string, string)>

  predicate UniqueKeys(o: Entries) {
    forall i, j :: 0 <= i < j < |o| ==> o[i].0 != o[j].0
  }

  /** `o[k] = v`: an existing key keeps its place, a new key goes last. */
  function Put(o: Entries, k: string, v: string): Entries
    decreases |o|
  {
    if |o| == 0 then [(k, v)]
    else if o[0].0 == k then [(k, v)] + o[1..]
    else [o[0]] + Put(o[1..], k, v)
  }

  /** `{ ...o, ...extra }`: the entries of `extra` assigned one by one. */
  function Spread(o: Entries, extra: Entries): Entries
    decreases |extra|
  {
    if |extra| == 0 then o else Spread(Put(o, extra[0].0, extra[0].1), extra[1..])
  }

  lemma {:induction false} GetIn(o: Entries, k: string)
    ensures Get(o, k).Some? <==> k in KeysOf(o)
    decreases |o|
  {
    if |o| > 0 {
      GetIn(o[1..], k);
      assert KeysOf(o) == [o[0].0] + KeysOf(o[1..]);
    }
  }

  /** Assignment sets its key, leaves every other key alone, and appends
      the key only when it is new. */
  lemma {:induction false} PutProperties(o: Entries, k: string, v: string)
    ensures Get(Put(o, k, v), k) == Some(v)
    ensures forall j :: j != k ==> Get(Put(o, k, v), j) == Get(o, j)
    ensures KeysOf(Put(o, k, v)) == if k in KeysOf(o) then KeysOf(o) else KeysOf(o) + [k]
    ensures UniqueKeys(o) ==> UniqueKeys(Put(o, k, v))
    decreases |o|
  {
    if |o| > 0 {
      PutProperties(o[1..], k, v);
      assert KeysOf(o) == [o[0].0] + KeysOf(o[1..]);
      if o[0].0 != k {
        var p := Put(o, k, v);
        assert KeysOf(p) == [o[0].0] + KeysOf(Put(o[1..], k, v));
        if UniqueKeys(o) {
          assert UniqueKeys(o[1..]);
          forall j | 1 <= j < |p| ensures p[j].0 != o[0].0 {
            assert p[j].0 == KeysOf(p)[j];
            assert KeysOf(p)[j] in KeysOf(Put(o[1..], k, v));
            assert o[0].0 !in KeysOf(o[1..]);
          }
        }
      } else {
        assert KeysOf(Put(o, k, v)) == [k] + KeysOf(o[1..]);
      }
    }
  }

  /** After the spread, a key of `extra` has its value from `extra`; any
      other key keeps the value it had. */
  lemma {:induction false} SpreadGet(o: Entries, extra: Entries, k: string)
    requires UniqueKeys(extra)
    ensures Get(Spread(o, extra), k) == if k in KeysOf(extra) then Get(extra, k) else Get(o, k)
    decreases |extra|
  {
    if |extra| > 0 {
      var rest := extra[1..];
      assert UniqueKeys(rest);
      assert KeysOf(extra) == [extra[0].0] + KeysOf(rest);
      assert extra[0].0 !in KeysOf(rest);
      SpreadGet(Put(o, extra[0].0, extra[0].1), rest, k);
      PutProperties(o, extra[0].0, extra[0].1);
    }
  }

  /** The spread keeps the original keys first, in their order, then the
      new keys; it holds exactly the keys of both, each once. */
  lemma {:induction false} SpreadKeys(o: Entries, extra: Entries)
    requires UniqueKeys(o)
    ensures |Spread(o, extra)| >= |o| && KeysOf(Spread(o, extra))[..|o|] == KeysOf(o)
    ensures forall k :: k in KeysOf(Spread(o, extra)) <==> k in KeysOf(o) || k in KeysOf(extra)
    ensures UniqueKeys(Spread(o, extra))
    decreases |extra|
  {
    if |extra| > 0 {
      var p := Put(o, extra[0].0, extra[0].1);
      PutProperties(o, extra[0].0, extra[0].1);
      SpreadKeys(p, extra[1..]);
      assert KeysOf(extra) == [extra[0].0] + KeysOf(extra[1..]);
      assert KeysOf(p)[..|o|] == KeysOf(o);
      assert KeysOf(Spread(o, extra))[..|o|] == KeysOf(p)[..|p|][..|o|];
    }
  }

  // ----- the component -----

  /** The data carried by the token-vault interrupt. */
  datatype Interrupt = Interrupt(requiredScopes: seq<string>, connection: string, authorizationParams: Option<Entries>)
  /** The optional `auth` prop. */
  datatype AuthOptions = AuthOptions(connectPath: Option<string>, returnTo: Option<string>)
  /** The optional action of the connect widget. */
  datatype ConnectAction = ConnectAction(labelText: Option<string>)
  datatype Location = Location(origin: string, pathname: string)
  /** `new URL(path, origin)` with its `search` set. */
  datatype Target = Target(origin: string, path: string, search: string)

  /** `connectPath = '/auth/connect'`, also when `auth` is absent. */
  function ConnectPath(auth: Option<AuthOptions>): string {
    if auth.Some? then Default(auth.value.connectPath, "/auth/connect") else "/auth/connect"
  }

  /** `returnTo = window.location.pathname`, also when `auth` is absent. */
  function ReturnTo(auth: Option<AuthOptions>, location: Location): string {
    if auth.Some? then Default(auth.value.returnTo, location.pathname) else location.pathname
  }

  /** `action?.label ?? 'Connect'`. */
  function ActionLabel(action: Option<ConnectAction>): string {
    if action.Some? then Default(action.value.labelText, "Connect") else "Connect"
  }

  /** The object given to `URLSearchParams`. */
  function SearchParams(interrupt: Interrupt, returnTo: string): Entries {
    Spread([("connection", interrupt.connection), ("returnTo", returnTo), ("scope", Join(" ", interrupt.requiredScopes))],
           Default(interrupt.authorizationParams, []))
  }

  /** Where the click handler sends the browser. */
  function ConnectTarget(interrupt: Interrupt, auth: Option<AuthOptions>, location: Location,
                         encode: Entries -> string): Target {
    Target(location.origin, ConnectPath(auth), encode(SearchParams(interrupt, ReturnTo(auth, location))))
  }

  /** Defaults apply only to missing values: a given path, page or label is
      kept, even when empty. */
  lemma Defaults(auth: Option<AuthOptions>, action: Option<ConnectAction>, location: Location)
    ensures ConnectPath(auth) == (if auth.Some? && auth.value.connectPath.Some? then auth.value.connectPath.value else "/auth/connect")
    ensures ReturnTo(auth, location) == (if auth.Some? && auth.value.returnTo.Some? then auth.value.returnTo.value else location.pathname)
    ensures ActionLabel(action) == (if action.Some? && action.value.labelText.Some? then action.value.labelText.value else "Connect")
  {
  }

  /** The query starts with connection, returnTo and scope, in that order,
      then the extra parameters not already present; each key once. A key
      of the extra parameters wins over the fixed ones; connection and
      returnTo are always present; scope is the required scopes joined by
      single spaces unless overridden. */
  lemma SearchParamsContents(interrupt: Interrupt, returnTo: string)
    requires interrupt.authorizationParams.Some? ==> UniqueKeys(interrupt.authorizationParams.value)
    ensures var params := SearchParams(interrupt, returnTo);
            var extra := Default(interrupt.authorizationParams, []);
            && |params| >= 3 && KeysOf(params)[..3] == ["connection", "returnTo", "scope"]
            && UniqueKeys(params)
            && (forall k :: k in KeysOf(params) <==> k in ["connection", "returnTo", "scope"] || k in KeysOf(extra))
            && (forall k :: k in KeysOf(extra) ==> Get(params, k) == Get(extra, k))
            && Get(params, "connection") == (if "connection" in KeysOf(extra) then Get(extra, "connection") else Some(interrupt.connection))
            && Get(params, "returnTo") == (if "returnTo" in KeysOf(extra) then Get(extra, "returnTo") else Some(returnTo))
            && Get(params, "scope") == (if "scope" in KeysOf(extra) then Get(extra, "scope") else Some(Join(" ", interrupt.requiredScopes)))
            && Get(params, "connection").Some? && Get(params, "returnTo").Some?
  {
    var base := [("connection", interrupt.connection), ("returnTo", returnTo), ("scope", Join(" ", interrupt.requiredScopes))];
    var extra := Default(interrupt.authorizationParams, []);
    assert UniqueKeys(extra);
    assert KeysOf(base) == ["connection", "returnTo", "scope"];
    assert Get(base, "connection") == Some(interrupt.connection);
    assert Get(base, "returnTo") == Some(returnTo);
    assert Get(base[2..], "scope") == Some(Join(" ", interrupt.requiredScopes));
    assert Get(base, "scope") == Some(Join(" ", interrupt.requiredScopes));
    SpreadKeys(base, extra);
    SpreadGet(base, extra, "connection");
    SpreadGet(base, extra, "returnTo");
    SpreadGet(base, extra, "scope");
    forall k | k in KeysOf(extra) ensures Get(SearchParams(interrupt, returnTo), k) == Get(extra, k) {
      SpreadGet(base, extra, k);
    }
    GetIn(extra, "connection");
    GetIn(extra, "returnTo");
  }

  /** When not overridden, the scope parameter splits back into exactly the
      required scopes (provided there is one and none holds a space). */
  lemma ScopeRoundTrip(interrupt: Interrupt, returnTo: string)
    requires interrupt.authorizationParams.Some? ==> UniqueKeys(interrupt.authorizationParams.value)
    requires "scope" !in KeysOf(Default(interrupt.authorizationParams, []))
    requires |interrupt.requiredScopes| >= 1
    requires forall i :: 0 <= i < |interrupt.requiredScopes| ==> ' ' !in interrupt.requiredScopes[i]
    ensures Get(SearchParams(interrupt, returnTo), "scope").Some?
    ensures Split(Get(SearchParams(interrupt, returnTo), "scope").value, ' ') == interrupt.requiredScopes
  {
    SearchParamsContents(interrupt, returnTo);
    SplitJoin(interrupt.requiredScopes, ' ');
  }

  /** The click lands on `connectPath` on the current origin, with query
      exactly the encoded parameters. */
  lemma ConnectTargetShape(interrupt: Interrupt, auth: Option<AuthOptions>, location: Location, encode: Entries -> string)
    ensures ConnectTarget(interrupt, auth, location, encode).origin == location.origin
    ensures ConnectTarget(interrupt, auth, location, encode).path == ConnectPath(auth)
    ensures ConnectTarget(interrupt, auth, location, encode).search == encode(SearchParams(interrupt, ReturnTo(auth, location)))
  {
  }
}
