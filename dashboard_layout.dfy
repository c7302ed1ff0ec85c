/** The dashboard shell (DashboardLayout.jsx): what its sidebar shows for the current user, and
    the sign-out handler that clears the session before navigating away. */
module DashboardLayout {
  import opened Common
  import opened Users
  import opened Storage
  import opened AuthProvider

  const GuestName: string := "Guest User"
  const DefaultAvatar: string := "https://i.ibb.co/2kR2zq0/user.png"
  const AdminLabel: string := "ADMIN PORTAL"
  const MemberLabel: string := "USER PANEL"

  /** `user?.role === 'admin'`. */
  function IsAdmin(user: Option<User>): (b: bool)
    ensures b <==> user.Some? && user.value.role == AdminRole
  {
    RoleOf(user) == Some(AdminRole)
  }

  /** `user?.name || "Guest User"`: never empty, the user's own name whenever it has one. */
  function DisplayName(user: Option<User>): (n: string)
    ensures n != ""
    ensures user.Some? && user.value.name != "" ==> n == user.value.name
    ensures user.None? || user.value.name == "" ==> n == GuestName
  {
    if user.Some? && user.value.name != "" then user.value.name else GuestName
  }

  /** `user?.profileImage || <default>`: never empty, the user's own image whenever it has one. */
  function AvatarUrl(user: Option<User>): (url: string)
    ensures url != ""
    ensures user.Some? && user.value.profileImage != "" ==> url == user.value.profileImage
    ensures user.None? || user.value.profileImage == "" ==> url == DefaultAvatar
  {
    if user.Some? && user.value.profileImage != "" then user.value.profileImage else DefaultAvatar
  }

  /** The label under the name: the admin label exactly for admins, the member label otherwise. */
  function PanelLabel(user: Option<User>): (text: string)
    ensures text == AdminLabel <==> IsAdmin(user)
    ensures text == MemberLabel <==> !IsAdmin(user)
  {
    if IsAdmin(user) then AdminLabel else MemberLabel
  }

  /** One history entry: the path, and the session as it stood when the navigation happened (its
      in-memory user, and whether a token was still stored). */
  datatype Visit = Visit(path: string, user: Option<User>, tokenStored: bool)

  /** The entry navigating to `path` records while `session` is in its current state. */
  function VisitNow(path: string, session: Session): (v: Visit)
    reads session
    ensures v.path == path && v.user == session.user
    ensures v.tokenStored <==> AuthTokenKey in session.store
  {
    Visit(path, session.user, AuthTokenKey in session.store)
  }

  /** The router's history, as far as the layout changes it. */
  class Navigator {
    var history: seq<Visit>

    constructor (start: string, session: Session)
      ensures history == [VisitNow(start, session)]
    {
      history := [VisitNow(start, session)];
    }

    /** `navigate(to)`: a new entry on top of the history, seen with the session as it is now. */
    method Navigate(to: string, session: Session)
      modifies this
      ensures history == old(history) + [VisitNow(to, session)]
    {
      history := history + [VisitNow(to, session)];
    }
  }

  /** `handleLogout` once the confirmation dialog has closed with `confirmed`. Declining changes
      nothing. Accepting calls `logoutUser()` and, only when its promise has resolved, that is once
      the session is cleared, navigates to the sign-in page: the new history entry sees no user
      and no stored token. */
  method HandleLogout(session: Session, nav: Navigator, confirmed: bool)
    modifies session, nav
    ensures !confirmed ==> unchanged(session) && unchanged(nav)
    ensures confirmed ==> session.user == None && session.store == StoreAfterLogout(old(session.store))
    ensures confirmed ==> session.authLoading == old(session.authLoading) && session.refetches == old(session.refetches)
    ensures confirmed ==> nav.history == old(nav.history) + [Visit("/", None, false)]
  {
    if confirmed {
      var done := session.LogoutUser();
      match done {
        case Resolved => nav.Navigate("/", session);
      }
    }
  }
}
