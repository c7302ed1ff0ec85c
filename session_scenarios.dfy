/** Whole-session runs: the session controller driven through its transitions, with the route
    guards, the interceptor and the sign-out handler reading its state at each step. Each method
    builds its own session, so its contract states only what the guards and requests see. */
module SessionScenarios {
  import opened Common
  import opened Users
  import opened Storage
  import opened AuthProvider
  import opened Routes
  import opened AxiosSecure
  import DashboardLayout

  /** Empty storage, and the current-user query settles with no profile. While it loads, the admin
      guard shows a spinner but the signed-in guard, which ignores `loading`, already redirects;
      after the settle both redirect to sign-in. */
  method ColdStartWithoutSession(pathname: string)
    returns (adminWhileLoading: Outcome, privetWhileLoading: Outcome, adminSettled: Outcome, privetSettled: Outcome)
    ensures adminWhileLoading == Spinner
    ensures privetWhileLoading == Redirect(SignInPath, pathname, true)
    ensures adminSettled == Redirect(SignInPath, pathname, true)
    ensures privetSettled == Redirect(SignInPath, pathname, true)
  {
    var session := new Session(map[]);
    adminWhileLoading := AdminRoute(session.Loading(true), session.user, pathname);
    privetWhileLoading := PrivetRoute(session.user, pathname);
    session.OnQuerySettled(false, None);
    adminSettled := AdminRoute(session.Loading(false), session.user, pathname);
    privetSettled := PrivetRoute(session.user, pathname);
  }

  /** Storage holds a profile and a token; the query settles with the server's profile. The stored
      profile is visible before the settle, the server's profile replaces it and is persisted
      after, and the token is untouched throughout. */
  method ProvisionalThenConfirmed(stored: User, server: User, token: string, pathname: string)
    returns (provisional: Option<User>, privetWhileLoading: Outcome, confirmed: Option<User>, persisted: Option<User>, tokenAfter: Option<string>)
    ensures provisional == Some(stored)
    ensures privetWhileLoading == Render
    ensures confirmed == Some(server)
    ensures persisted == Some(server)
    ensures tokenAfter == Some(token)
  {
    var session := new Session(map[UserInfoKey := Profile(stored), AuthTokenKey := Text(token)]);
    provisional := session.user;
    privetWhileLoading := PrivetRoute(session.user, pathname);
    session.OnQuerySettled(false, Some(server));
    confirmed := session.user;
    persisted := SeedUser(session.store);
    tokenAfter := StoredToken(session.store);
  }

  /** Storage holds a profile the server no longer confirms: the query settles with nothing, and the
      provisional user stays signed in, with loading over. */
  method UnconfirmedProvisionalUserStays(stored: User, pathname: string)
    returns (settledUser: Option<User>, loading: bool, privet: Outcome)
    ensures settledUser == Some(stored)
    ensures !loading
    ensures privet == Render
  {
    var session := new Session(map[UserInfoKey := Profile(stored)]);
    session.OnQuerySettled(false, None);
    settledUser := session.user;
    loading := session.Loading(false);
    privet := PrivetRoute(session.user, pathname);
  }

  /** A corrupt "userInfo" entry: the session starts with no user, without failing. */
  method CorruptStorageStartsSignedOut(garbage: string, pathname: string)
    returns (seeded: Option<User>, privet: Outcome)
    ensures seeded == None
    ensures privet == Redirect(SignInPath, pathname, true)
  {
    var session := new Session(map[UserInfoKey := Text(garbage)]);
    seeded := session.user;
    privet := PrivetRoute(session.user, pathname);
  }

  /** An admin and a member each sign in, after the session has settled, and open the same admin
      page: the admin sees it, the member is sent to the forbidden page, not to sign-in. */
  method AdminAndMemberAtAdminPage(admin: User, member: User, adminToken: string, memberToken: string, pathname: string)
    returns (adminOutcome: Outcome, memberOutcome: Outcome)
    requires admin.role == AdminRole && member.role != AdminRole
    ensures adminOutcome == Render
    ensures memberOutcome == Redirect(ForbiddenPath, pathname, true)
  {
    var session := new Session(map[]);
    session.OnQuerySettled(false, None);
    session.LoginUser(admin, adminToken);
    adminOutcome := AdminRoute(session.Loading(false), session.user, pathname);
    var other := new Session(map[]);
    other.OnQuerySettled(false, None);
    other.LoginUser(member, memberToken);
    memberOutcome := AdminRoute(other.Loading(false), other.user, pathname);
  }

  /** Sign in, send a request, sign out through the dashboard's handler, send another request, and
      revisit a protected page. The first request carries the token; once the handler has navigated
      away the session is cleared, so the second request carries no `Authorization` header and the
      protected page redirects to sign-in. */
  method SignInThenSignOut(u: User, token: string, pathname: string)
    returns (first: Headers, navigatedTo: string, second: Headers, revisit: Outcome)
    requires token != ""
    ensures first == map[AuthorizationHeader := BearerPrefix + token]
    ensures navigatedTo == SignInPath
    ensures second == map[]
    ensures revisit == Redirect(SignInPath, pathname, true)
  {
    var session := new Session(map[]);
    session.OnQuerySettled(false, None);
    session.LoginUser(u, token);
    var request := new RequestConfig(map[]);
    var sent := Intercept(request, session.store);
    first := sent.headers;
    var nav := new DashboardLayout.Navigator(pathname, session);
    DashboardLayout.HandleLogout(session, nav, true);
    navigatedTo := nav.history[|nav.history| - 1].path;
    var later := new RequestConfig(map[]);
    sent := Intercept(later, session.store);
    second := sent.headers;
    revisit := PrivetRoute(session.user, pathname);
  }
}
