/**
  The admin dashboard (app/admin/dashboard/page.tsx): a mount-time gate on the
  token slot, a spinner until the gate opens, and the logout handler.
 */
module DashboardPage {
  import opened Wrappers
  import Auth
  import Api
  import LoginPage
  import opened Effects

  /** The page's local `isAuthenticated` flag. */
  datatype Dashboard = Dashboard(isAuthenticated: bool)

  const Initial: Dashboard := Dashboard(false)

  const LoginPath: string := "/admin"

  datatype View = Spinner | Editors

  /** What the page renders: the editors only once the local flag is set. */
  function Render(d: Dashboard): (r: View)
    ensures r == Editors <==> d.isAuthenticated
  {
    if d.isAuthenticated then Editors else Spinner
  }

  datatype MountStep = MountStep(state: Dashboard, nav: Nav)

  /** The mount effect: open the page when the token gate is open, otherwise go to the login page. */
  function Mount(d: Dashboard, host: Auth.Host): (r: MountStep)
    ensures Auth.IsAuthenticated(host) ==> r.state.isAuthenticated && r.nav == Stay
    ensures !Auth.IsAuthenticated(host) ==> r.state == d && r.nav == Push(LoginPath)
  {
    if !Auth.IsAuthenticated(host) then MountStep(d, Push(LoginPath))
    else MountStep(d.(isAuthenticated := true), Stay)
  }

  datatype LogoutStep = LogoutStep(state: Dashboard, host: Auth.Host, call: Option<Api.Call>, toast: Toast, nav: Nav)

  /**
    `handleLogout`: call the remote logout only when a token is stored, then, in the
    `finally` block, drop the token, clear the flag and replace the route with the
    login page. `remoteOk` is whether that call succeeded. No path reads it,
    because the source only logs a failure to the console, so the parameter just
    marks where the result would enter.
   */
  function HandleLogout(d: Dashboard, host: Auth.Host, remoteOk: bool): (r: LogoutStep)
    ensures r.call.Some? <==> Auth.IsAuthenticated(host)
    ensures r.call.Some? ==> r.call.value == Api.Logout(Auth.GetToken(host).value)
    ensures r.host == Auth.RemoveToken(host) && Auth.GetToken(r.host) == None
    ensures !r.state.isAuthenticated
    ensures r.nav == Replace(LoginPath) && r.toast == Success("Logged out successfully")
  {
    var token := Auth.GetToken(host);
    var call := if token.Some? && token.value != "" then Some(Api.Logout(token.value)) else None;
    // a failed remote logout is only logged to the console
    LogoutStep(Dashboard(false), Auth.RemoveToken(host), call, Success("Logged out successfully"), Replace(LoginPath))
  }

  /**
    The outcome of logging out does not depend on whether the remote call failed.
    This holds by construction, since `remoteOk` is never read. It records that the
    model has no path the result could change.
   */
  lemma LogoutIgnoresRemoteResult(d: Dashboard, host: Auth.Host)
    ensures HandleLogout(d, host, true) == HandleLogout(d, host, false)
  {
  }

  /** Mounted fresh, the page shows the editors exactly when the token gate is open. */
  lemma MountGate(host: Auth.Host)
    ensures var m := Mount(Initial, host);
            && (Render(m.state) == Editors <==> Auth.IsAuthenticated(host))
            && (m.nav == Push("/admin") <==> !Auth.IsAuthenticated(host))
  {
  }

  /** After a successful login with a non-empty token, mounting the dashboard opens it. */
  lemma LoginThenMount(form: LoginPage.Form, storage: map<string, string>, token: string)
    requires token != ""
    ensures var login := LoginPage.HandleLogin(form, Auth.Browser(storage), Api.Returned(token));
            Render(Mount(Initial, login.host).state) == Editors
  {
    LoginPage.SuccessStoresToken(form, storage, token);
  }

  /** After logging out, mounting the dashboard again sends the user back to the login page. */
  lemma LogoutThenMount(d: Dashboard, host: Auth.Host, remoteOk: bool)
    ensures var out := HandleLogout(d, host, remoteOk);
            && Render(out.state) == Spinner
            && Mount(out.state, out.host).nav == Push("/admin")
  {
  }
}
