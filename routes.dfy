/** The two route guards (AdminRoute.jsx, PrivetRoute.jsx) as total functions of the session
    state they read and the current pathname. */
module Routes {
  import opened Common
  import opened Users

  /** What a guard renders: a spinner, a `<Navigate to state={{from}} replace>` redirect, or the
      guarded children. */
  datatype Outcome = Spinner | Redirect(to: string, from: string, replace: bool) | Render

  /** The sign-in entry point. */
  const SignInPath: string := "/"
  /** The page for signed-in users who lack the admin role. */
  const ForbiddenPath: string := "/forbidden"

  /** The admin guard. Its checks are ordered: loading first, then "no user", then the role. */
  function AdminRoute(loading: bool, user: Option<User>, pathname: string): (o: Outcome)
    ensures o == Spinner <==> loading
    ensures o == Redirect(SignInPath, pathname, true) <==> !loading && user.None?
    ensures o == Redirect(ForbiddenPath, pathname, true) <==> !loading && user.Some? && user.value.role != AdminRole
    ensures o == Render <==> !loading && user.Some? && user.value.role == AdminRole
  {
    if loading then Spinner
    else if user.None? then Redirect(SignInPath, pathname, true)
    else if user.value.role != AdminRole then Redirect(ForbiddenPath, pathname, true)
    else Render
  }

  /** The signed-in guard. It reads only `user`: it never shows a spinner, so a missing provisional
      user is redirected even while the session is still loading, and it never sends anyone to
      the forbidden page. */
  function PrivetRoute(user: Option<User>, pathname: string): (o: Outcome)
    ensures o != Spinner
    ensures o == Redirect(SignInPath, pathname, true) <==> user.None?
    ensures o == Render <==> user.Some?
  {
    if user.None? then Redirect(SignInPath, pathname, true) else Render
  }

  /** A signed-in non-admin is never sent to sign in, and a visitor without a session is never sent
      to the forbidden page. */
  lemma AdminRouteSeparatesAuthFromRole(loading: bool, user: Option<User>, pathname: string)
    ensures user.Some? ==> AdminRoute(loading, user, pathname) != Redirect(SignInPath, pathname, true)
    ensures user.None? ==> AdminRoute(loading, user, pathname) != Redirect(ForbiddenPath, pathname, true)
  {
  }

  /** Once loading is over, the admin guard is the signed-in guard plus a role check: it sends to
      sign-in exactly when the signed-in guard does, and whatever it renders the signed-in guard
      renders too. */
  lemma AdminRouteRefinesPrivetRoute(user: Option<User>, pathname: string)
    ensures AdminRoute(false, user, pathname).Redirect? && AdminRoute(false, user, pathname).to == SignInPath
      <==> PrivetRoute(user, pathname).Redirect?
    ensures AdminRoute(false, user, pathname) == Render ==> PrivetRoute(user, pathname) == Render
  {
  }
}
