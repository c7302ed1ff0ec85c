/** The session controller (AuthProvider.jsx): an in-memory `user`, an `authLoading` flag and the
    persistent store, changed by four transitions. React's state cells become fields; the
    current-user query is not run here, its settled `(isLoading, data)` is an input. */
module AuthProvider {
  import opened Common
  import opened Users
  import opened Storage

  /** What `logoutUser()` returns: `Promise.resolve()`. It is already settled when the call
      returns, so it has no pending value; a caller's `.then` runs after the session is cleared. */
  datatype Completion = Resolved

  class Session {
    /** The `user` state cell. The bearer token is never held here, only in `store`. */
    var user: Option<User>
    /** The `authLoading` state cell. */
    var authLoading: bool
    /** `localStorage`. */
    var store: Store
    /** How many times the current-user query was asked to refetch (`refetch?.()`). */
    var refetches: nat

    /** Mounting the provider: `user` is seeded from "userInfo", falling back to no user when
        the entry is absent, empty or unparseable; `authLoading` starts true. */
    constructor (initial: Store)
      ensures store == initial
      ensures user == SeedUser(initial)
      ensures user.Some? <==> UserInfoKey in initial && initial[UserInfoKey].Profile?
      ensures authLoading
      ensures refetches == 0
    {
      store := initial;
      user := SeedUser(initial);
      authLoading := true;
      refetches := 0;
    }

    /** The `loading` value consumers read: the query's own `isLoading` or `authLoading`.
        While `authLoading` holds (until the first settle) consumers always see loading. */
    function Loading(isLoading: bool): (r: bool)
      reads this
      ensures authLoading ==> r
      ensures isLoading ==> r
      ensures r ==> isLoading || authLoading
    {
      isLoading || authLoading
    }

    /** The effect run when the current-user query reports `(isLoading, data)`. While the query
        is loading nothing happens. Once it is not: a profile replaces `user` and is written to
        "userInfo"; no profile leaves the provisional user and the store as they were; in both
        cases `authLoading` becomes false. */
    method OnQuerySettled(isLoading: bool, data: Option<User>)
      modifies this
      ensures isLoading ==> user == old(user) && store == old(store) && authLoading == old(authLoading)
      ensures !isLoading ==> !authLoading
      ensures !isLoading && data.Some? ==> user == data && store == StoreAfterProfile(old(store), data.value)
      ensures !isLoading && data.None? ==> user == old(user) && store == old(store)
      ensures authLoading ==> old(authLoading)
      ensures refetches == old(refetches)
    {
      if !isLoading {
        match data {
          case Some(profile) =>
            user := Some(profile);
            store := store[UserInfoKey := Profile(profile)];
          case None =>
        }
        authLoading := false;
      }
    }

    /** `loginUser(u, token)`: the token and the profile are written to storage, `user` becomes
        `u` at once (before any refetch returns), and a refetch is requested. `authLoading`
        is not touched. */
    method LoginUser(u: User, token: string)
      modifies this
      ensures store == StoreAfterLogin(old(store), u, token)
      ensures user == Some(u)
      ensures authLoading == old(authLoading)
      ensures refetches == old(refetches) + 1
    {
      store := store[AuthTokenKey := Text(token)];
      store := store[UserInfoKey := Profile(u)];
      user := Some(u);
      refetches := refetches + 1;
    }

    /** `logoutUser()`: no user, both session entries removed, other keys untouched, no refetch,
        `authLoading` not touched; the returned promise is already resolved. */
    method LogoutUser() returns (done: Completion)
      modifies this
      ensures user == None
      ensures store == StoreAfterLogout(old(store))
      ensures UserInfoKey !in store && AuthTokenKey !in store
      ensures authLoading == old(authLoading)
      ensures refetches == old(refetches)
      ensures done == Resolved
    {
      user := None;
      store := store - {UserInfoKey};
      store := store - {AuthTokenKey};
      done := Resolved;
    }
  }
}
