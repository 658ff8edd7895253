/** The route guard: whether protected content or the loading fallback is
    shown, and when the browser is sent to the SSO login. */
module AuthGuard {
  import opened Wrappers
  import opened Strings
  import opened AuthConfig
  import opened Api
  import opened Storage
  import opened AuthContext

  /** The auth hint read on mount: stored user id and token both non-empty;
      `read` is `None` when reading the store throws. */
  function AuthHint(read: Option<map<string, string>>): (hint: bool)
    ensures hint <==> read.Some? && UserIdKey in read.value && read.value[UserIdKey] != ""
                      && AuthTokenKey in read.value && read.value[AuthTokenKey] != ""
  {
    match read
    case None => false
    case Some(items) =>
      IsAuthenticatedIff(items);
      IsAuthenticated(items)
  }

  datatype Rendered = Fallback | Children

  /** The render decision of `AuthGuard`. */
  function Render(mounted: bool, loading: bool, hint: bool, userPresent: bool): (r: Rendered)
    ensures !mounted ==> r == Fallback
    ensures loading && !hint ==> r == Fallback
    ensures !userPresent && !hint ==> r == Fallback
  {
    if !mounted then Fallback
    else if loading && !hint then Fallback
    else if !userPresent && !hint then Fallback
    else Children
  }

  /** Children show exactly when mounted and either hinted or loaded with a user;
      a hint alone is enough, even while loading or without a user. */
  lemma RenderChildrenIff(mounted: bool, loading: bool, hint: bool, userPresent: bool)
    ensures Render(mounted, loading, hint, userPresent) == Children <==> mounted && (hint || (!loading && userPresent))
  {
  }

  /** The login redirect: whenever loading is over and there is no user. */
  function GuardRedirect(appBase: string, loading: bool, userPresent: bool, redirectTo: Option<string>, pathname: string): (target: Option<string>)
    ensures target.Some? <==> !loading && !userPresent
    ensures target.Some? ==> target.value == GetLoginUrl(appBase, Some(OrElse(redirectTo, pathname)))
  {
    if !loading && !userPresent then Some(GetLoginUrl(appBase, Some(OrElse(redirectTo, pathname)))) else None
  }

  /** The redirect ignores the hint: a hinted guard with no user shows its
      children and still sends the browser to login. */
  lemma HintedGuardStillRedirects(appBase: string, redirectTo: Option<string>, pathname: string)
    ensures Render(true, false, true, false) == Children
    ensures GuardRedirect(appBase, false, false, redirectTo, pathname).Some?
  {
  }

  /** What `useAuthGuard` returns, with the redirect it triggers. */
  datatype GuardHook = GuardHook(user: Option<User>, loading: bool, isAuthenticated: bool, redirect: Option<string>)

  function UseAuthGuard(appBase: string, user: Option<User>, loading: bool, redirectTo: Option<string>, pathname: string): (h: GuardHook)
    ensures h.user == user && h.loading == loading
    ensures h.isAuthenticated <==> user.Some?
    ensures h.redirect == GuardRedirect(appBase, loading, user.Some?, redirectTo, pathname)
  {
    GuardHook(user, loading, user.Some?, GuardRedirect(appBase, loading, user.Some?, redirectTo, pathname))
  }

  /** The hook only redirects callers it reports as unauthenticated. */
  lemma HookRedirectsOnlyUnauthenticated(appBase: string, user: Option<User>, loading: bool, redirectTo: Option<string>, pathname: string)
    ensures var h := UseAuthGuard(appBase, user, loading, redirectTo, pathname);
            h.redirect.Some? ==> !h.isAuthenticated && !loading
  {
  }

  /** The guard's own state: set once by its mount effect. */
  class Guard {
    var mounted: bool
    var hasAuthHint: bool
    const store: SessionStore

    constructor (store: SessionStore)
      ensures this.store == store && !mounted && !hasAuthHint
    {
      this.store := store;
      mounted := false;
      hasAuthHint := false;
    }

    /** The mount effect; `readFails` says reading the store throws. */
    method Mount(readFails: bool)
      modifies this
      ensures mounted
      ensures hasAuthHint == AuthHint(if readFails then None else Some(store.items))
    {
      mounted := true;
      if readFails {
        hasAuthHint := false;
      } else {
        var d := GetAuthData(store.items);
        hasAuthHint := d.userId != "" && d.authToken != "";
      }
    }

    function Show(loading: bool, userPresent: bool): Rendered
      reads this
    {
      Render(mounted, loading, hasAuthHint, userPresent)
    }
  }
}
