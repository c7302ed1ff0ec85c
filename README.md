# FinTrack client: session, guards and page logic in Dafny

FinTrack is a personal-finance React client over a REST API. This project models the parts of it
that hold logic rather than layout, and proves what they do:

- the **session controller** (`AuthProvider`): the in-memory `user`, the `authLoading` flag and the
  two persistent entries `"userInfo"` and `"authToken"`, changed by seeding from storage, by the
  settle of the current-user query, by `loginUser` and by `logoutUser`;
- the **route guards** `AdminRoute` and `PrivetRoute`, the **role dispatch** of the dashboard index
  and the **dashboard layout**'s admin flag, display fallbacks and sign-out sequence;
- the **bearer interceptor** that reads the token from storage for every request;
- the **savings-goal figures** (totals, overall and per-goal progress, achieved flag, clamps) and the
  contribution guard;
- the **category type filter**, its empty state and the create-category handler.

Each source file becomes one module, except that the two guards (`AdminRoute.jsx`,
`PrivetRoute.jsx`) share the module `Routes`; `Storage` holds the persistent store shared by the
session and the interceptor, and `SessionScenarios` drives whole sessions through the guards. Stateful code
becomes a class whose methods say exactly what the new state is: `AuthProvider.Session`,
`AxiosSecure.RequestConfig`, `DashboardLayout.Navigator`, `BudgetPlanner.BudgetPlannerPage` and
`ManageCategory.ManageCategoryPage`. Expression code becomes functions with lemmas relating them:
login/logout against a reload, the header against the token, the admin guard against the signed-in
guard and the dashboard choice, per-goal figures against the totals, the filter against its input.

Inputs the client receives from outside are parameters: the settled `(isLoading, data)` of the
current-user query, whether a confirmation dialog was accepted, the number typed into a form.
Requests the page fires are recorded as a log on the page object instead of being sent.

The model follows the code as written: `PrivetRoute` does not wait for `loading`; the bearer token is never held in memory, only in
storage; a settle with no profile keeps the provisional user from storage rather than signing out;
there is no session-generation counter, so nothing discards a late response.

## Model

| member | source | states |
|---|---|---|
| `Storage.SeedUser` | src/Context/AuthProvider.jsx:10-18 | a user exactly when "userInfo" holds a serialized profile, and then that profile; absent, empty or unparseable text gives none (pinned to the transitions by the `ReloadAfter*` lemmas) |
| `Storage.StoredToken` | src/hooks/useAxiosSecure.jsx:9 | the text stored under "authToken", exactly when there is one |
| `Storage.StoreAfterLogin` | src/Context/AuthProvider.jsx:34-35 | both session keys present, holding the token and the profile; every other key as before |
| `Storage.StoreAfterLogout` | src/Context/AuthProvider.jsx:42-43 | both session keys gone, every other key as before |
| `Storage.StoreAfterProfile` | src/Context/AuthProvider.jsx:27 | "userInfo" holds the server's profile; the token and every other key as before |
| `Storage.ReloadAfterLogin` | src/Context/AuthProvider.jsx:33-35 | after login, seeding from storage gives the logged-in user, the stored token is the one given, and no other key changed |
| `Storage.ReloadAfterLogout` | src/Context/AuthProvider.jsx:42-43 | after logout, seeding gives no user and there is no token, whatever the store held; other keys unchanged |
| `Storage.LogoutUndoesLogin` | src/Context/AuthProvider.jsx:33-45 | logging out after a login leaves the same store as logging out without it |
| `Storage.ReloadAfterProfile` | src/Context/AuthProvider.jsx:26-27 | rewriting "userInfo" with the server's profile makes a reload seed that profile and leaves the token alone |
| `AuthProvider.Session.constructor` | src/Context/AuthProvider.jsx:10-21 | the user is the stored profile, or none when "userInfo" is absent, empty or unparseable (nothing thrown); `authLoading` starts true |
| `AuthProvider.Session.Loading` | src/Context/AuthProvider.jsx:50 | `loading` is the query's `isLoading` or `authLoading`; consumers see loading until the first settle |
| `AuthProvider.Session.OnQuerySettled` | src/Context/AuthProvider.jsx:23-31 | nothing while loading; a profile becomes the user and is persisted; no profile keeps user and store; `authLoading` becomes false and never returns to true |
| `AuthProvider.Session.LoginUser` | src/Context/AuthProvider.jsx:33-38 | token and profile written, user visible at once, one refetch requested, `authLoading` untouched |
| `AuthProvider.Session.LogoutUser` | src/Context/AuthProvider.jsx:40-45 | no user, both entries removed, other keys untouched, `authLoading` untouched, an already-resolved result |
| `Routes.AdminRoute` | src/routes/AdminRoute.jsx:5-34 | spinner exactly while loading; else sign-in redirect exactly without a user, forbidden redirect exactly for a non-admin, children exactly for an admin; redirects carry the pathname and replace |
| `Routes.PrivetRoute` | src/routes/PrivetRoute.jsx:6-21 | never a spinner (loading is not read), sign-in redirect exactly without a user, children for any user whatever the role, never the forbidden page |
| `Routes.AdminRouteSeparatesAuthFromRole` | src/routes/AdminRoute.jsx:13-31 | a signed-in user is never sent to sign-in, a visitor without a session never to the forbidden page |
| `Routes.AdminRouteRefinesPrivetRoute` | src/routes/AdminRoute.jsx:13-33 | once loaded, the admin guard sends to sign-in exactly when the signed-in guard does, and renders only where it renders |
| `AxiosSecure.WithBearer` | src/hooks/useAxiosSecure.jsx:8-14 | a non-empty stored token sets `Authorization` to "Bearer " + token; no or empty token leaves the headers as they were; other headers are kept |
| `AxiosSecure.Intercept` | src/hooks/useAxiosSecure.jsx:7-16 | the same config object is returned, its headers updated in place as `WithBearer` states |
| `AxiosSecure.StripBearer` | src/hooks/useAxiosSecure.jsx:11 | a token comes back exactly when the value starts with "Bearer ", and the value is that prefix followed by it |
| `AxiosSecure.BearerRoundTrip` | src/hooks/useAxiosSecure.jsx:11 | stripping the prefix from the header set gives back the stored token |
| `AxiosSecure.WithBearerIdempotent` | src/hooks/useAxiosSecure.jsx:8-14 | running the interceptor twice equals running it once |
| `AxiosSecure.NoBearerAfterLogout` | src/hooks/useAxiosSecure.jsx:9-13 | after logout a request keeps exactly its own headers: no `Authorization` is added |
| `AxiosSecure.BearerAfterLogin` | src/hooks/useAxiosSecure.jsx:9-12 | after login with a non-empty token every request carries "Bearer " + that token |
| `DashboardLayout.IsAdmin` | src/Layouts/DashboardLayout.jsx:12 | true exactly when there is a user whose role is "admin" |
| `DashboardLayout.DisplayName` | src/Layouts/DashboardLayout.jsx:91 | never empty; the user's name when it has one, "Guest User" without a user or name |
| `DashboardLayout.AvatarUrl` | src/Layouts/DashboardLayout.jsx:86 | never empty; the user's image when it has one, the fixed default otherwise |
| `DashboardLayout.PanelLabel` | src/Layouts/DashboardLayout.jsx:94 | "ADMIN PORTAL" exactly for admins, "USER PANEL" exactly otherwise |
| `DashboardLayout.VisitNow` | src/Layouts/DashboardLayout.jsx:26 | a history entry records the path with the session's user and whether a token is stored at that moment |
| `DashboardLayout.Navigator.Navigate` | src/Layouts/DashboardLayout.jsx:26 | `navigate(to)` pushes one entry, seen with the session as it stands when navigating |
| `DashboardLayout.HandleLogout` | src/Layouts/DashboardLayout.jsx:14-38 | a declined dialog changes nothing; an accepted one clears the session and only then navigates: the new entry is "/" with no user and no stored token |
| `DashboardIndex.DashboardIndex` | src/Components/DashboardIndex.jsx:6-15 | the admin dashboard exactly for role "admin", the financial dashboard for any other role and for no user |
| `DashboardIndex.DashboardDependsOnlyOnRole` | src/Components/DashboardIndex.jsx:7-10 | users with the same role get the same dashboard |
| `DashboardIndex.AdminViewsAgree` | src/Components/DashboardIndex.jsx:8-14 | the index's choice, the layout's admin flag and label, and the loaded admin guard agree on who is an admin |
| `BudgetPlanner.TotalTarget` | src/Pages/Dashboard/User/BudgetPlanner.jsx:81 | 0 for no goals, non-negative when every target is |
| `BudgetPlanner.TotalSaved` | src/Pages/Dashboard/User/BudgetPlanner.jsx:82 | 0 for no goals, missing amounts count as 0, non-negative when every saved amount is |
| `BudgetPlanner.OverallProgress` | src/Pages/Dashboard/User/BudgetPlanner.jsx:83 | 0 when the total target is not positive (no division by zero), otherwise saved times 100 over target |
| `BudgetPlanner.SavedAmount` | src/Pages/Dashboard/User/BudgetPlanner.jsx:82 | the goal's saved amount, 0 when it is missing |
| `BudgetPlanner.SummaryRemaining` | src/Pages/Dashboard/User/BudgetPlanner.jsx:115 | target minus saved over all goals, negative exactly when more is saved than targeted |
| `BudgetPlanner.TotalsAppend` | src/Pages/Dashboard/User/BudgetPlanner.jsx:81-82 | both totals add up over concatenated goal lists |
| `BudgetPlanner.TotalsCompare` | src/Pages/Dashboard/User/BudgetPlanner.jsx:81-82 | every goal at or above its target gives total saved at or above total target, and likewise at or below |
| `BudgetPlanner.OverallProgressFull` | src/Pages/Dashboard/User/BudgetPlanner.jsx:83 | with a positive total target the ring reaches 100 exactly when total saved reaches total target |
| `BudgetPlanner.OverallProgressBounded` | src/Pages/Dashboard/User/BudgetPlanner.jsx:81-83 | non-negative amounts with no goal over target keep the ring within 0 and 100 |
| `BudgetPlanner.OversavedSummaryIsNegative` | src/Pages/Dashboard/User/BudgetPlanner.jsx:115 | the summary "Remaining" is not clamped: a goal saved past its target makes it negative |
| `BudgetPlanner.Progress` | src/Pages/Dashboard/User/BudgetPlanner.jsx:125 | saved times 100 over target for a non-zero target; plus infinity, NaN or minus infinity for a zero target by the sign of the saved amount |
| `BudgetPlanner.Remaining` | src/Pages/Dashboard/User/BudgetPlanner.jsx:126 | what is left to save, at most 0 exactly when the target is reached |
| `BudgetPlanner.AtLeast` | src/Pages/Dashboard/User/BudgetPlanner.jsx:127 | `n >= bound` on a JavaScript number: plus infinity passes every bound, NaN and minus infinity none |
| `BudgetPlanner.IsAchieved` | src/Pages/Dashboard/User/BudgetPlanner.jsx:125-127 | for a positive target, achieved exactly when saved reaches the target; for a zero target, exactly when something is saved; for a negative target, exactly when saved is at or below it |
| `BudgetPlanner.Needed` | src/Pages/Dashboard/User/BudgetPlanner.jsx:167 | never negative, the remaining amount whenever that is not negative, otherwise 0 |
| `BudgetPlanner.BarWidth` | src/Pages/Dashboard/User/BudgetPlanner.jsx:157 | never above 100, a full bar exactly when achieved, the progress itself otherwise |
| `BudgetPlanner.AchievedIffTargetReached` | src/Pages/Dashboard/User/BudgetPlanner.jsx:125-127 | for a positive target: achieved exactly when saved reaches the target, exactly when nothing is needed |
| `BudgetPlanner.ZeroTargetGoal` | src/Pages/Dashboard/User/BudgetPlanner.jsx:125-127 | a zero target counts any positive saving as achieved; with nothing saved it is not achieved although nothing is needed |
| `BudgetPlanner.AllAchievedMeansFull` | src/Pages/Dashboard/User/BudgetPlanner.jsx:81-127 | with non-negative targets, a positive total target and every goal achieved, the overall ring is at least 100 |
| `BudgetPlanner.ZeroTargetsRingEmpty` | src/Pages/Dashboard/User/BudgetPlanner.jsx:81-127 | when every target is 0 and every goal has something saved, every card is achieved while the total target and the ring are 0 |
| `BudgetPlanner.BudgetPlannerPage.constructor` | src/Pages/Dashboard/User/BudgetPlanner.jsx:16 | no deposit form open, no requests fired |
| `BudgetPlanner.BudgetPlannerPage.OpenDeposit` | src/Pages/Dashboard/User/BudgetPlanner.jsx:200 | the deposit form opens on that goal; no request fired |
| `BudgetPlanner.BudgetPlannerPage.CloseDeposit` | src/Pages/Dashboard/User/BudgetPlanner.jsx:194 | the deposit form closes (also on a contribution's success, line 42); no request fired |
| `BudgetPlanner.BudgetPlannerPage.HandleAddCash` | src/Pages/Dashboard/User/BudgetPlanner.jsx:57-63 | a contribution with the entered amount is fired exactly when it is a number above 0; otherwise nothing changes |
| `BudgetPlanner.BudgetPlannerPage.HandleDelete` | src/Pages/Dashboard/User/BudgetPlanner.jsx:65-79 | a delete request only when the dialog is confirmed |
| `ManageCategory.FilterByType` | src/Pages/Dashboard/Admin/ManageCategory.jsx:69 | only categories of the type, each from the input, no more than the input |
| `ManageCategory.FilteredCategories` | src/Pages/Dashboard/Admin/ManageCategory.jsx:67-69 | the input unchanged under "all", otherwise only categories of the chosen type |
| `ManageCategory.FilterComplete` | src/Pages/Dashboard/Admin/ManageCategory.jsx:69 | every input category of the type is kept |
| `ManageCategory.FilterIsSubsequence` | src/Pages/Dashboard/Admin/ManageCategory.jsx:69 | the result keeps the input order: it is a subsequence of the input |
| `ManageCategory.FilterByTypeFixesMatching` | src/Pages/Dashboard/Admin/ManageCategory.jsx:69 | a list that holds only categories of the type passes unchanged |
| `ManageCategory.FilterIdempotent` | src/Pages/Dashboard/Admin/ManageCategory.jsx:67-69 | filtering the filtered list again with the same value changes nothing |
| `ManageCategory.ShowsEmptyState` | src/Pages/Dashboard/Admin/ManageCategory.jsx:153 | never while loading; once loaded, exactly when the filtered list is empty |
| `ManageCategory.EmptyStateIffNoneOfType` | src/Pages/Dashboard/Admin/ManageCategory.jsx:153 | under a type filter the empty panel shows, once loaded, exactly when no category has that type |
| `ManageCategory.ManageCategoryPage.constructor` | src/Pages/Dashboard/Admin/ManageCategory.jsx:12 | filter "all", an empty form whose type is the first option "expense", no requests |
| `ManageCategory.ManageCategoryPage.SetFilter` | src/Pages/Dashboard/Admin/ManageCategory.jsx:79-81 | only the filter changes |
| `ManageCategory.ManageCategoryPage.EditForm` | src/Pages/Dashboard/Admin/ManageCategory.jsx:98-107 | only the form's name and type change |
| `ManageCategory.ManageCategoryPage.HandleAddCategory` | src/Pages/Dashboard/Admin/ManageCategory.jsx:44-52 | a create request with exactly the form's name and type, then the form reset to an empty name and "expense" |
| `ManageCategory.ManageCategoryPage.HandleDelete` | src/Pages/Dashboard/Admin/ManageCategory.jsx:54-65 | a delete request only when the dialog is confirmed |
| `SessionScenarios.ColdStartWithoutSession` | src/Context/AuthProvider.jsx:10-31 | empty storage: the admin guard spins while loading but the signed-in guard already redirects; after the settle both redirect to "/" |
| `SessionScenarios.ProvisionalThenConfirmed` | src/Context/AuthProvider.jsx:10-28 | the stored profile is visible before the settle, the server's profile replaces and is persisted after, the token is untouched |
| `SessionScenarios.UnconfirmedProvisionalUserStays` | src/Context/AuthProvider.jsx:23-31 | a settle without a profile keeps the stored user signed in with loading over |
| `SessionScenarios.CorruptStorageStartsSignedOut` | src/Context/AuthProvider.jsx:10-18 | an unparseable "userInfo" starts the session with no user, and the signed-in guard redirects |
| `SessionScenarios.AdminAndMemberAtAdminPage` | src/routes/AdminRoute.jsx:23-33 | after login an admin is let through the admin guard and a member is sent to "/forbidden", not to "/" |
| `SessionScenarios.SignInThenSignOut` | src/Layouts/DashboardLayout.jsx:24-26 | a request after login carries the token; after the sign-out handler navigates, requests carry no header and protected pages redirect |

## Left out

- Network I/O: the axios instances, react-query fetching, cache invalidation and the
  `useCurrentUser` hook (not part of this model). The query's settled `(isLoading, data)` is a
  parameter of `OnQuerySettled`; `refetch` is recorded as a count of requests.
- React scheduling: effect dependency tracking and re-render timing. The settle effect is an
  explicit method call.
- JSON and `localStorage` internals. A stored entry is either a serialized profile or other text.
- Storage.SeedUser: text under "userInfo" that parses to a JSON value other than a profile (`"42"`,
  say) gives the source a truthy non-profile `user`; the model gives no user.
- AxiosSecure.WithBearer: a serialized profile stored under "authToken", which no code path
  writes, is treated as no token; the source would send its JSON text as the credential.
- AuthProvider.Session.LoginUser: a token that is `undefined` is stored by the source as the text
  "undefined"; the model takes the token as a string.
- SweetAlert dialogs and toasts, DOM modal calls, `toFixed`, `toLocaleString`, date formatting and
  CSS: a dialog is reduced to whether it was confirmed.
- Floating point: amounts are exact reals, with no rounding and no negative zero.
- BudgetPlanner.Progress: the card figures require the goal to carry `currentAmount`, because the
  card's `goal.currentAmount.toLocaleString()` (BudgetPlanner.jsx:163) throws without one; that
  failed render is not modelled.
- Amounts arriving as strings (the create-goal form submits `targetAmount` as typed text, which
  `reduce` would concatenate) are not modelled; amounts are numbers.
- Goal creation (`onSubmit`, BudgetPlanner.jsx:55): it passes the form fields to the create request
  unchanged and holds no logic.
- The number typed into the deposit form is taken as already converted (None when it is not a
  number); `parseFloat` and the `>` comparison's conversion agree on the values a number input
  accepts.
