/** The dashboard's index page (DashboardIndex.jsx): which dashboard the current user sees. */
module DashboardIndex {
  import opened Common
  import opened Users
  import Routes
  import DashboardLayout

  datatype Dashboard = Admindashboard | FinancialDashboard

  /** Role dispatch on `user?.role`: the admin dashboard for the admin role, the financial
      dashboard for any other role and for no user at all. */
  function DashboardIndex(user: Option<User>): (d: Dashboard)
    ensures d == Admindashboard <==> RoleOf(user) == Some(AdminRole)
    ensures user.None? ==> d == FinancialDashboard
  {
    if RoleOf(user) == Some(AdminRole) then Admindashboard else FinancialDashboard
  }

  /** The choice depends on the role alone: two users with the same role see the same dashboard. */
  lemma DashboardDependsOnlyOnRole(a: Option<User>, b: Option<User>)
    requires RoleOf(a) == RoleOf(b)
    ensures DashboardIndex(a) == DashboardIndex(b)
  {
  }

  /** The three places that decide "is this an admin" agree: the index page picks the admin
      dashboard exactly when the layout shows the admin label and exactly when the admin guard,
      once loaded, renders its children. */
  lemma AdminViewsAgree(user: Option<User>, pathname: string)
    ensures DashboardIndex(user) == Admindashboard <==> DashboardLayout.IsAdmin(user)
    ensures DashboardLayout.IsAdmin(user) <==> DashboardLayout.PanelLabel(user) == DashboardLayout.AdminLabel
    ensures DashboardLayout.IsAdmin(user) <==> Routes.AdminRoute(false, user, pathname) == Routes.Render
  {
  }
}
