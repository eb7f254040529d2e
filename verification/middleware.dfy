/**
  The route guard of middleware.ts: requests under the dashboard prefix without a
  `token` cookie are sent back to the login page; everything else passes.
 */
module RouteGuard {
  import opened JsText

  /** What the guard reads of a request: its path and its cookies by name. */
  datatype Request = Request(pathname: string, cookies: map<string, string>)

  /** `NextResponse.next()` or `NextResponse.redirect(...)`; the redirect URL keeps the request's origin. */
  datatype Response = Next | Redirect(path: string)

  const DashboardPrefix: string := "/admin/dashboard"
  const LoginPath: string := "/admin"
  const TokenCookie: string := "token"

  /**
    `isAuthenticated(request)`: `request.cookies.get('token')` yields a cookie object
    whenever the cookie exists, and an object is truthy whatever its value.
   */
  predicate HasTokenCookie(request: Request)
  {
    TokenCookie in request.cookies
  }

  /** `middleware(request)` */
  function Middleware(request: Request): (r: Response)
    ensures r.Redirect? <==> StartsWith(request.pathname, DashboardPrefix) && TokenCookie !in request.cookies
    ensures r.Redirect? ==> r.path == LoginPath
  {
    if StartsWith(request.pathname, DashboardPrefix) && !HasTokenCookie(request) then
      Redirect(LoginPath)
    else
      Next
  }

  /** A dashboard path without the cookie is redirected to the login page. */
  lemma DashboardWithoutCookieRedirects(request: Request)
    requires DashboardPrefix <= request.pathname
    requires TokenCookie !in request.cookies
    ensures Middleware(request) == Redirect("/admin")
  {
  }

  /** A dashboard path with the cookie passes, whatever the cookie holds. */
  lemma DashboardWithCookiePasses(request: Request, value: string)
    requires DashboardPrefix <= request.pathname
    ensures Middleware(request.(cookies := request.cookies[TokenCookie := value])) == Next
  {
  }

  /** Any other path passes, whatever the cookies. */
  lemma OtherPathsPass(request: Request)
    requires !(DashboardPrefix <= request.pathname)
    ensures Middleware(request) == Next
  {
  }

  /** The decision reads only the path and whether the cookie exists. */
  lemma OnlyPresenceMatters(a: Request, b: Request)
    requires a.pathname == b.pathname
    requires TokenCookie in a.cookies <==> TokenCookie in b.cookies
    ensures Middleware(a) == Middleware(b)
  {
  }
}
