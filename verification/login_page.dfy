/**
  The admin login page (app/admin/page.tsx): submit the credentials, store the
  returned token and go to the dashboard, or report invalid credentials.
 */
module LoginPage {
  import opened Wrappers
  import Auth
  import Api
  import opened Effects

  datatype Form = Form(username: string, password: string, isLoading: bool)

  const Initial: Form := Form("", "", false)

  const DashboardPath: string := "/admin/dashboard"

  /** Everything `handleLogin` leaves behind. */
  datatype LoginStep = LoginStep(form: Form, host: Auth.Host, toast: Toast, nav: Nav)

  /** The submit event: `setIsLoading(true)` while the request is in flight. */
  function Begin(form: Form): (r: Form)
    ensures r.isLoading
    ensures r.username == form.username && r.password == form.password
  {
    form.(isLoading := true)
  }

  /**
    `handleLogin` once `api.login` has settled: `reply` is the token it returned
    or the error it threw (a rejected status or a transport failure).
   */
  function HandleLogin(form: Form, host: Auth.Host, reply: Api.Outcome<string>): (r: LoginStep)
    ensures !r.form.isLoading
    ensures r.form.username == form.username && r.form.password == form.password
    ensures reply.Returned? ==> r.host == Auth.SetToken(host, reply.value)
    ensures reply.Raised? ==> r.host == host
    ensures r.nav != Stay <==> reply.Returned?
    ensures r.nav != Stay ==> r.nav == Push(DashboardPath)
    ensures r.toast == Failure("Invalid credentials") <==> reply.Raised?
    ensures reply.Returned? ==> r.toast == Success("Login successful!")
  {
    var busy := Begin(form);
    match reply
    case Returned(token) =>
      LoginStep(busy.(isLoading := false), Auth.SetToken(host, token), Success("Login successful!"), Push(DashboardPath))
    case Raised(_) =>
      LoginStep(busy.(isLoading := false), host, Failure("Invalid credentials"), Stay)
  }

  /** The flag is up from the submit until the reply settles, and down after either outcome. */
  lemma LoadingWhileInFlight(form: Form, host: Auth.Host, reply: Api.Outcome<string>)
    ensures Begin(form).isLoading
    ensures !HandleLogin(Begin(form), host, reply).form.isLoading
    ensures HandleLogin(Begin(form), host, reply).form == form.(isLoading := false)
  {
  }

  /**
    Through the client's status rule: a rejected status stores nothing and stays
    on the page with "Invalid credentials"; an accepted one stores the token.
   */
  lemma StatusDecidesLogin(form: Form, host: Auth.Host, ok: bool, token: string)
    ensures var r := HandleLogin(form, host, Api.Settle(Api.Login, ok, token));
            && r.host == (if ok then Auth.SetToken(host, token) else host)
            && (r.nav == Stay <==> !ok)
            && (r.toast == Failure("Invalid credentials") <==> !ok)
  {
  }

  /**
    A successful login in the browser stores exactly the returned token, and the
    admin gate opens unless that token is empty.
   */
  lemma SuccessStoresToken(form: Form, storage: map<string, string>, token: string)
    ensures var r := HandleLogin(form, Auth.Browser(storage), Api.Returned(token));
            && Auth.GetToken(r.host) == Some(token)
            && (Auth.IsAuthenticated(r.host) <==> token != "")
            && r.nav == Push("/admin/dashboard")
  {
  }

  /** A failed login leaves the token slot as it was and stays on the page. */
  lemma FailureKeepsSlot(form: Form, host: Auth.Host, message: string)
    ensures var r := HandleLogin(form, host, Api.Raised(message));
            && Auth.GetToken(r.host) == Auth.GetToken(host)
            && Auth.IsAuthenticated(r.host) == Auth.IsAuthenticated(host)
            && r.nav == Stay
  {
  }
}
