/** The browser's persistent key-value store as the session logic sees it: two entries,
    "userInfo" (the serialized profile) and "authToken" (the bearer credential), beside whatever
    other keys the page may hold. */
module Storage {
  import opened Common
  import opened Users

  /** What one entry holds. `Profile(u)` is the text `JSON.stringify(u)` wrote; `Text(s)` is any
      other string: a token, or text that `JSON.parse` rejects or that does not decode to a
      profile. JSON itself is not modelled. */
  datatype StoredValue = Text(s: string) | Profile(user: User)

  type Store = map<string, StoredValue>

  const UserInfoKey: string := "userInfo"
  const AuthTokenKey: string := "authToken"

  /** `localStorage.getItem(key)`: `null` (None) when the key is absent. */
  function GetItem(store: Store, key: string): Option<StoredValue> {
    if key in store then Some(store[key]) else None
  }

  /** The provisional user read once at start-up (AuthProvider.jsx:10-18): an absent entry and the
      empty string are falsy and give no user; text that does not parse to a profile is caught and
      also gives no user; nothing is thrown. */
  function SeedUser(store: Store): (u: Option<User>)
    ensures u.Some? <==> UserInfoKey in store && store[UserInfoKey].Profile?
    ensures u.Some? ==> store[UserInfoKey] == Profile(u.value)
  {
    match GetItem(store, UserInfoKey)
    case Some(Profile(u)) => Some(u)
    case Some(Text(_)) => None
    case None => None
  }

  /** `localStorage.getItem("authToken")` as the string the interceptor tests for truthiness. */
  function StoredToken(store: Store): (t: Option<string>)
    ensures t.Some? <==> AuthTokenKey in store && store[AuthTokenKey].Text?
    ensures t.Some? ==> store[AuthTokenKey] == Text(t.value)
  {
    match GetItem(store, AuthTokenKey)
    case Some(Text(t)) => Some(t)
    case Some(Profile(_)) => None
    case None => None
  }

  /** The store after `loginUser(u, t)`: the token, then the serialized profile, are written. */
  function StoreAfterLogin(store: Store, u: User, token: string): (after: Store)
    ensures after.Keys == store.Keys + {UserInfoKey, AuthTokenKey}
    ensures after[UserInfoKey] == Profile(u) && after[AuthTokenKey] == Text(token)
    ensures SameOtherKeys(store, after)
  {
    store[AuthTokenKey := Text(token)][UserInfoKey := Profile(u)]
  }

  /** The store after `logoutUser()`: both session entries are removed. */
  function StoreAfterLogout(store: Store): (after: Store)
    ensures after.Keys == store.Keys - {UserInfoKey, AuthTokenKey}
    ensures SameOtherKeys(store, after)
  {
    store - {UserInfoKey, AuthTokenKey}
  }

  /** The store after the current-user query settles with profile `p`: "userInfo" is rewritten. */
  function StoreAfterProfile(store: Store, p: User): (after: Store)
    ensures after.Keys == store.Keys + {UserInfoKey}
    ensures after[UserInfoKey] == Profile(p)
    ensures GetItem(after, AuthTokenKey) == GetItem(store, AuthTokenKey)
    ensures SameOtherKeys(store, after)
  {
    store[UserInfoKey := Profile(p)]
  }

  /** Only the two session keys are ever written: every other entry survives login and logout. */
  ghost predicate SameOtherKeys(before: Store, after: Store) {
    forall k :: k != UserInfoKey && k != AuthTokenKey ==> GetItem(after, k) == GetItem(before, k)
  }

  /** A reload right after `loginUser(u, t)` seeds the session with `u`, and the interceptor would
      find `t`; no other key was touched. */
  lemma ReloadAfterLogin(store: Store, u: User, token: string)
    ensures SeedUser(StoreAfterLogin(store, u, token)) == Some(u)
    ensures StoredToken(StoreAfterLogin(store, u, token)) == Some(token)
    ensures SameOtherKeys(store, StoreAfterLogin(store, u, token))
  {
  }

  /** A reload right after `logoutUser()` starts with no user and no token, whatever the store held;
      no other key was touched. */
  lemma ReloadAfterLogout(store: Store)
    ensures SeedUser(StoreAfterLogout(store)) == None
    ensures StoredToken(StoreAfterLogout(store)) == None
    ensures SameOtherKeys(store, StoreAfterLogout(store))
  {
  }

  /** Logging out erases every trace of a preceding login: the store is the one logging out
      of the pre-login store gives. */
  lemma LogoutUndoesLogin(store: Store, u: User, token: string)
    ensures StoreAfterLogout(StoreAfterLogin(store, u, token)) == StoreAfterLogout(store)
  {
  }

  /** Reconciling with profile `p` makes a reload seed `p`, and leaves the token alone. */
  lemma ReloadAfterProfile(store: Store, p: User)
    ensures SeedUser(StoreAfterProfile(store, p)) == Some(p)
    ensures StoredToken(StoreAfterProfile(store, p)) == StoredToken(store)
  {
  }
}
