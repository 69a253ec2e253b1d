/** The authentication mutations: what each sends and what its `onSuccess`
    handler writes to or removes from `localStorage`. The network call is not
    modelled; its outcome is a parameter. */
module UseAuth {
  import opened Wrappers
  import opened Storage
  import opened AuthUtils

  /** The token pair nested under `data` in the login response. */
  datatype TokenPair = TokenPair(accessToken: Option<string>, refreshToken: Option<string>)

  /** A login response body: the nested `data` object, absent when the body
      does not have one. */
  datatype AuthResponse = AuthResponse(data: Option<TokenPair>)

  /** The request body `{ email, password }` built from the mutation's variables:
      `JSON.stringify` drops a field whose value is `undefined`. */
  function CredentialsBody(variables: map<string, string>): (body: map<string, string>)
    ensures body.Keys == variables.Keys * {"email", "password"}
    ensures forall k :: k in body ==> body[k] == variables[k]
  {
    map k | k in variables.Keys * {"email", "password"} :: variables[k]
  }

  /** The login variables `{ username, password }` that the session provider
      passes reach the server without an e-mail address. */
  lemma UsernameIsNotSent(username: string, password: string)
    ensures CredentialsBody(map["username" := username, "password" := password]) == map["password" := password]
  {
    var vars := map["username" := username, "password" := password];
    assert vars.Keys * {"email", "password"} == {"password"};
  }

  /** The sign-up variables reach the server as `{ email, password }`: the name
      is never sent. */
  lemma SignupNameIsNotSent(variables: map<string, string>)
    ensures "name" !in CredentialsBody(variables)
  {
  }

  /** `localStorage.setItem(key, v)` stores `String(v)`: `undefined` becomes the
      text "undefined". */
  function Stored(v: Option<string>): string {
    match v
    case Some(s) => s
    case None => "undefined"
  }

  /** The store after the login `onSuccess` handler, and whether it threw:
      reading `data.data.accessToken` throws a `TypeError` when `data.data` is
      absent, before anything is written. */
  function LoginSuccessWrites(items: map<string, string>, response: AuthResponse): (map<string, string>, bool) {
    match response.data
    case None => (items, true)
    case Some(pair) => (items[TOKEN_KEY := Stored(pair.accessToken)][REFRESH_TOKEN_KEY := Stored(pair.refreshToken)], false)
  }

  /** A login response carrying both tokens leaves exactly that pair where the
      request pipeline reads it, and every other key as it was. */
  lemma LoginStoresTokenPair(items: map<string, string>, access: string, refresh: string)
    ensures var (r, threw) := LoginSuccessWrites(items, AuthResponse(Some(TokenPair(Some(access), Some(refresh)))));
      && !threw
      && TokensIn(r) == StoredTokens(Some(access), Some(refresh))
      && r.Keys == items.Keys + {TOKEN_KEY, REFRESH_TOKEN_KEY}
      && forall k :: k in items && k != TOKEN_KEY && k != REFRESH_TOKEN_KEY ==> r[k] == items[k]
  {
  }

  /** A response without the nested object writes nothing. */
  lemma LoginWithoutDataWritesNothing(items: map<string, string>)
    ensures LoginSuccessWrites(items, AuthResponse(None)) == (items, true)
  {
  }

  /** The outcome of a mutation's network call. */
  datatype Outcome<T> = Succeeded(value: T) | Failed(message: string)

  /** The store after a login mutation settles: its `onError` only logs. */
  function LoginEffect(items: map<string, string>, outcome: Outcome<AuthResponse>): (r: map<string, string>)
    ensures outcome.Failed? ==> r == items
    ensures outcome.Succeeded? ==> r == LoginSuccessWrites(items, outcome.value).0
  {
    match outcome
    case Failed(_) => items
    case Succeeded(response) => LoginSuccessWrites(items, response).0
  }

  /** The login `onSuccess` handler, writing the two keys one after the other. */
  method OnLoginSuccess(storage: WebStorage, response: AuthResponse) returns (threw: bool)
    modifies storage
    ensures (storage.items, threw) == LoginSuccessWrites(old(storage.items), response)
  {
    if response.data.None? {
      return true;
    }
    storage.SetItem(TOKEN_KEY, Stored(response.data.value.accessToken));
    storage.SetItem(REFRESH_TOKEN_KEY, Stored(response.data.value.refreshToken));
    threw := false;
  }

  /** The sign-up `onSuccess` handler: registration returns no token, so the
      store is left as it was. */
  method OnSignupSuccess(storage: WebStorage)
    ensures storage.items == old(storage.items)
  {
  }

  /** The logout mutation's call: it always resolves. */
  function LogoutCall(): (resolved: bool)
    ensures resolved
  {
    true
  }

  /** The store after the logout `onSuccess` handler. */
  function LogoutWrites(items: map<string, string>): (r: map<string, string>)
    ensures TokensIn(r) == StoredTokens(None, None)
    ensures r.Keys == items.Keys - {TOKEN_KEY, REFRESH_TOKEN_KEY}
    ensures forall k :: k in r ==> r[k] == items[k]
  {
    items - {TOKEN_KEY, REFRESH_TOKEN_KEY}
  }

  /** Logging out twice leaves the store as logging out once, and the stored
      user record survives it. */
  lemma LogoutIdempotent(items: map<string, string>)
    ensures LogoutWrites(LogoutWrites(items)) == LogoutWrites(items)
    ensures "user_data" in items ==> "user_data" in LogoutWrites(items) && LogoutWrites(items)["user_data"] == items["user_data"]
  {
  }

  /** The logout `onSuccess` handler, removing the two keys one after the other. */
  method OnLogoutSuccess(storage: WebStorage)
    modifies storage
    ensures storage.items == LogoutWrites(old(storage.items))
  {
    storage.RemoveItem(TOKEN_KEY);
    storage.RemoveItem(REFRESH_TOKEN_KEY);
  }
}
