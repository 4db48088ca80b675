/** Session token management over the shared key-value store: a single
    entry under the key "token" holds the bearer credential. */
module Auth {
  import opened Wrappers
  import opened Js
  import opened Storage

  const TokenKey: string := "token"

  /** The token as `getToken` reports it: the stored string, or `null`. */
  function StoredToken(m: map<string, string>): Option<string> {
    Lookup(m, TokenKey)
  }

  /** What `isAuthenticated` answers on a store: `!!getToken()`. */
  predicate LoggedIn(m: map<string, string>) {
    Truthy(StoredToken(m))
  }

  method SetToken(store: LocalStorage, token: string)
    modifies store
    ensures store.items == old(store.items)[TokenKey := token]
  {
    store.SetItem(TokenKey, token);
  }

  method GetToken(store: LocalStorage) returns (token: Option<string>)
    ensures token.Some? <==> TokenKey in store.items
    ensures token.Some? ==> token.value == store.items[TokenKey]
    ensures token == StoredToken(store.items)
  {
    token := store.GetItem(TokenKey);
  }

  method RemoveToken(store: LocalStorage)
    modifies store
    ensures store.items == old(store.items) - {TokenKey}
  {
    store.RemoveItem(TokenKey);
  }

  /** Logged in iff a token is stored and it is not the empty string; the
      token's validity or expiry is not consulted. */
  method IsAuthenticated(store: LocalStorage) returns (b: bool)
    ensures b <==> TokenKey in store.items && store.items[TokenKey] != ""
    ensures b == LoggedIn(store.items)
  {
    var token := GetToken(store);
    b := Truthy(token);
  }

  /** After `setToken(t)`, `getToken()` returns `t`, whatever was stored
      before, and no other key of the store has changed. */
  lemma SetThenGet(m: map<string, string>, t: string)
    ensures StoredToken(m[TokenKey := t]) == Some(t)
    ensures forall k :: k != TokenKey ==> Lookup(m[TokenKey := t], k) == Lookup(m, k)
  {
  }

  /** `isAuthenticated()` right after `setToken(t)` is true exactly when `t`
      is non-empty: storing '' logs nobody in. */
  lemma LoggedInAfterSet(m: map<string, string>, t: string)
    ensures LoggedIn(m[TokenKey := t]) <==> t != ""
  {
  }

  /** After `removeToken()`, `getToken()` is `null`, nobody is logged in,
      every other key is intact, and a second removal changes nothing. */
  lemma RemoveThenGet(m: map<string, string>)
    ensures StoredToken(m - {TokenKey}) == None
    ensures !LoggedIn(m - {TokenKey})
    ensures forall k :: k != TokenKey ==> Lookup(m - {TokenKey}, k) == Lookup(m, k)
    ensures (m - {TokenKey}) - {TokenKey} == m - {TokenKey}
  {
  }

  /** Drives the store as a login and a logout do: the session is live
      between the two calls and gone after the second. */
  method LoginThenLogout(store: LocalStorage, token: string)
    returns (during: bool, after: bool, left: Option<string>)
    modifies store
    ensures during <==> token != ""
    ensures !after && left == None
    ensures store.items == old(store.items) - {TokenKey}
  {
    SetToken(store, token);
    during := IsAuthenticated(store);
    RemoveToken(store);
    after := IsAuthenticated(store);
    left := GetToken(store);
  }
}
