/** The user profile record the identity endpoint returns and the session stores. */
module Users {
  import opened Common

  /** A profile. A field the server leaves out is modelled as "", since every check the client
      makes on these fields (`user?.name || ...`, `user?.profileImage || ...`,
      `user.role !== "admin"`) treats a missing field and an empty string alike. */
  datatype User = User(id: string, name: string, email: string, role: string, profileImage: string)

  /** The one role that the client treats specially. */
  const AdminRole: string := "admin"

  /** `user?.role`: the role of the signed-in user, or nothing when there is no user. */
  function RoleOf(user: Option<User>): Option<string> {
    match user
    case Some(u) => Some(u.role)
    case None => None
  }
}
