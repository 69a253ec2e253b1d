/** The token store the request pipeline reads and the refresh step updates
    (`getStoredTokens`, `updateAccessToken`). */
module AuthUtils {
  import opened Wrappers
  import opened Storage

  const TOKEN_KEY := "access_token"
  const REFRESH_TOKEN_KEY := "refresh_token"

  /** A JavaScript string, `null` or `undefined` tested for truthiness. */
  predicate Present(v: Option<string>) {
    v.Some? && v.value != ""
  }

  datatype StoredTokens = StoredTokens(accessToken: Option<string>, refreshToken: Option<string>)

  /** What `getStoredTokens` returns for a store holding `items`. */
  function TokensIn(items: map<string, string>): (t: StoredTokens)
    ensures t.accessToken.Some? <==> TOKEN_KEY in items
    ensures t.refreshToken.Some? <==> REFRESH_TOKEN_KEY in items
    ensures t.accessToken.Some? ==> t.accessToken.value == items[TOKEN_KEY]
    ensures t.refreshToken.Some? ==> t.refreshToken.value == items[REFRESH_TOKEN_KEY]
  {
    StoredTokens(Lookup(items, TOKEN_KEY), Lookup(items, REFRESH_TOKEN_KEY))
  }

  /** `getStoredTokens()`: the values under the two token keys, `null` for an
      absent key; the store is only read. */
  method GetStoredTokens(storage: WebStorage) returns (t: StoredTokens)
    ensures t == TokensIn(storage.items)
  {
    var access := storage.GetItem(TOKEN_KEY);
    var refresh := storage.GetItem(REFRESH_TOKEN_KEY);
    t := StoredTokens(access, refresh);
  }

  /** The store after `updateAccessToken(token)`. */
  function WithAccessToken(items: map<string, string>, token: string): (r: map<string, string>)
    ensures TokensIn(r) == TokensIn(items).(accessToken := Some(token))
    ensures r.Keys == items.Keys + {TOKEN_KEY}
    ensures forall k :: k in items && k != TOKEN_KEY ==> r[k] == items[k]
  {
    items[TOKEN_KEY := token]
  }

  /** `updateAccessToken(token)`: writes the access token and nothing else. */
  method UpdateAccessToken(storage: WebStorage, token: string)
    modifies storage
    ensures storage.items == WithAccessToken(old(storage.items), token)
  {
    storage.SetItem(TOKEN_KEY, token);
  }

  /** Writing the same access token twice is writing it once. */
  lemma UpdateAccessTokenIdempotent(items: map<string, string>, token: string)
    ensures WithAccessToken(WithAccessToken(items, token), token) == WithAccessToken(items, token)
  {
  }
}
