/*
 * The admin page's guard: a signed-out visitor goes to the login page, a
 * signed-in user who is not an admin to the dashboard, and the page shows
 * nothing unless the user's role is "admin".
 */
module Admin {
  import opened Js
  import opened Browser
  import QueryClient

  const DashboardPath := "/dashboard"

  /** `user?.role === "admin"` */
  predicate IsAdmin(user: Json) {
    Prop(user, "role") == Some(JStr("admin"))
  }

  /** Where the effect sends the visitor, if anywhere. */
  function AdminRedirect(isAuthenticated: bool, user: Json): Option<string> {
    if !isAuthenticated then Some(QueryClient.LoginPath)
    else if !IsAdmin(user) then Some(DashboardPath)
    else None
  }

  /** `if (user?.role !== "admin") return null`: whether the page content is rendered. */
  predicate AdminRenders(user: Json) {
    IsAdmin(user)
  }

  /**
   * The three outcomes of the guard: the login page exactly when signed
   * out, the dashboard exactly when signed in without the admin role, and
   * no redirect exactly for a signed-in admin.
   */
  lemma AdminRedirectCases(isAuthenticated: bool, user: Json)
    ensures AdminRedirect(isAuthenticated, user) == Some(QueryClient.LoginPath) <==> !isAuthenticated
    ensures AdminRedirect(isAuthenticated, user) == Some(DashboardPath) <==> isAuthenticated && !IsAdmin(user)
    ensures AdminRedirect(isAuthenticated, user).None? <==> isAuthenticated && AdminRenders(user)
  {
  }

  /**
   * The render test looks only at the role: with no token but a stored
   * admin user, the content renders while the effect redirects to log in.
   */
  lemma RenderIgnoresToken(user: Json)
    requires IsAdmin(user)
    ensures AdminRenders(user) && AdminRedirect(false, user) == Some(QueryClient.LoginPath)
  {
  }

  /** The guard effect: at most one navigation, to the target the guard picks. */
  method Guard(w: Window, isAuthenticated: bool, user: Json)
    modifies w`pathname, w`navigations
    ensures var target := AdminRedirect(isAuthenticated, user);
            if target.Some? then w.navigations == old(w.navigations) + [target.value] && w.pathname == target.value
            else w.navigations == old(w.navigations) && w.pathname == old(w.pathname)
  {
    if !isAuthenticated {
      w.Navigate(QueryClient.LoginPath);
      return;
    }
    if !IsAdmin(user) {
      w.Navigate(DashboardPath);
    }
  }
}
