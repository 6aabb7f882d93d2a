/**
 * The persistent token store: one entry under a fixed key in a key/value
 * store that outlives the process (web storage or the platform's secure
 * store, both seen here as one map from key to string).
 */
module Storage {
  import opened Wrappers
  import opened JsValues

  /** The single key the session layer owns. */
  const TokenKey: string := "auth_token"

  type Store = map<string, string>

  /**
   * setTokenInStorage: a falsy token deletes the key; any other token is
   * written under the key as its string form. No other key is touched.
   */
  function SetTokenInStorage(store: Store, token: Json): (r: Store)
    ensures Truthy(token) ==> TokenKey in r && r[TokenKey] == JsString(token)
    ensures !Truthy(token) ==> TokenKey !in r
    ensures forall k :: k != TokenKey ==> (k in r <==> k in store)
    ensures forall k :: k in store && k != TokenKey ==> r[k] == store[k]
  {
    if !Truthy(token) then store - {TokenKey} else store[TokenKey := JsString(token)]
  }

  /** getTokenFromStorage: the stored string, or null when the key is absent. */
  function GetTokenFromStorage(store: Store): (r: Option<string>)
    ensures r.Some? <==> TokenKey in store
    ensures r.Some? ==> r.value == store[TokenKey]
  {
    if TokenKey in store then Some(store[TokenKey]) else None
  }

  /** The value a successful read hands to the in-memory state: the string, or null. */
  function AsJson(stored: Option<string>): (v: Json)
    ensures Truthy(v) <==> stored.Some? && stored.value != ""
  {
    match stored
    case Some(s) => JStr(s)
    case None => JNull
  }

  /** Writing a truthy token and reading back gives its string form; for a non-empty string, the token itself. */
  lemma ReadAfterStore(store: Store, token: Json)
    requires Truthy(token)
    ensures GetTokenFromStorage(SetTokenInStorage(store, token)) == Some(JsString(token))
    ensures token.JStr? ==> GetTokenFromStorage(SetTokenInStorage(store, token)) == Some(token.s)
  {
  }

  /** Writing a falsy token deletes the key: a later read gives null and every other entry is as before. */
  lemma ReadAfterClear(store: Store, token: Json)
    requires !Truthy(token)
    ensures GetTokenFromStorage(SetTokenInStorage(store, token)) == None
    ensures SetTokenInStorage(store, token) == store - {TokenKey}
  {
  }

  /** Only the last write matters. */
  lemma LastWriteWins(store: Store, first: Json, second: Json)
    ensures SetTokenInStorage(SetTokenInStorage(store, first), second) == SetTokenInStorage(store, second)
  {
  }
}
