/** The login page: the redirect for a visitor who is already signed in,
    and the SSO login URL its button goes to. */
module LoginPage {
  import opened Wrappers
  import opened Strings
  import opened AuthConfig
  import opened Api

  /** The mount effect: an authenticated visitor is sent to the `redirect`
      query value, or the dashboard; anyone else stays. */
  function MountRedirect(items: map<string, string>, query: map<string, string>): (target: Option<string>)
    ensures target.Some? <==> IsAuthenticated(items)
    ensures target.Some? && Truthy(Param(query, "redirect")) ==> target.value == query["redirect"]
    ensures target.Some? && !Truthy(Param(query, "redirect")) ==> target.value == DashboardRoute
  {
    if IsAuthenticated(items) then Some(OrElse(Param(query, "redirect"), DashboardRoute)) else None
  }

  /** `handleLogin`: the SSO login URL for the `redirect` query value, or the current path. */
  function LoginTarget(appBase: string, query: map<string, string>, pathname: string): (url: string)
    ensures Truthy(Param(query, "redirect")) ==> url == GetLoginUrl(appBase, Some(query["redirect"]))
    ensures !Truthy(Param(query, "redirect")) ==> url == GetLoginUrl(appBase, Some(pathname))
  {
    GetLoginUrl(appBase, Some(OrElse(Param(query, "redirect"), pathname)))
  }

  /** The page reads `redirect`, not the `redirect_path` the login URL
      carries: a query with only `redirect_path` sends a signed-in visitor
      to the dashboard. */
  lemma RedirectPathIsNotRead(items: map<string, string>, path: string)
    requires IsAuthenticated(items)
    ensures MountRedirect(items, map["redirect_path" := path]) == Some(DashboardRoute)
  {
    assert "redirect" !in map["redirect_path" := path];
  }

  /** From the page (pathname `/auth/login`, no query) the button logs in
      with the login page itself as the destination. */
  lemma LoginFromLoginPage(appBase: string)
    ensures LoginTarget(appBase, map[], LoginRoute) == GetLoginUrl(appBase, Some(LoginRoute))
  {
  }
}
