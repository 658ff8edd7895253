/** The authentication configuration: fixed routes, session-storage keys, the
    single-sign-on base URL, and the builders of the login and logout URLs of
    the identity provider. */
module AuthConfig {
  import opened Wrappers
  import opened Strings
  import opened Uri

  /** Where users log in. */
  const SsoBaseUrl := "https://tools.linkai.nl/login"
  /** The application URL used when the deployment does not configure one. */
  const DefaultAppBaseUrl := "http://localhost:3000"

  const CallbackRoute := "/auth/sso-callback"
  const LoginRoute := "/auth/login"
  const DashboardRoute := "/"
  const UnauthorizedRoute := "/auth/unauthorized"

  const UserIdKey := "user_id"
  const AuthTokenKey := "auth_token"
  const CompanyIdKey := "company_id"
  const UserProfileKey := "user_profile"

  /** The session keys in declaration order (the order `Object.values` visits them). */
  const SessionKeys: seq<string> := [UserIdKey, AuthTokenKey, CompanyIdKey, UserProfileKey]

  /** The configured application URL: the environment value if non-empty, else the default. */
  function AppBaseUrl(env: Option<string>): (r: string)
    ensures r != ""
    ensures Truthy(env) ==> r == env.value
    ensures !Truthy(env) ==> r == DefaultAppBaseUrl
  {
    OrElse(env, DefaultAppBaseUrl)
  }

  /** The callback URL handed to the identity provider, with the optional return path. */
  function CallbackUrl(appBase: string, redirectPath: Option<string>): string {
    var callback := appBase + CallbackRoute;
    if Truthy(redirectPath) then callback + "?redirect_path=" + EncodeURIComponent(redirectPath.value)
    else callback
  }

  /** `authUrls.getLoginUrl(redirectPath)`. */
  function GetLoginUrl(appBase: string, redirectPath: Option<string>): string {
    SsoBaseUrl + "?redirect_url=" + EncodeURIComponent(CallbackUrl(appBase, redirectPath))
  }

  /** `authUrls.getLogoutUrl()`. */
  function GetLogoutUrl(appBase: string): string {
    SsoBaseUrl + "/logout?redirect_url=" + EncodeURIComponent(appBase)
  }

  lemma NoDelimiters(s: string)
    ensures Count(EncodeURIComponent(s), '?') == 0
    ensures '&' !in EncodeURIComponent(s)
  {
    CountAbsent(EncodeURIComponent(s), '?');
  }

  lemma QueryPrefixCount()
    ensures Count("?redirect_url=", '?') == 1
  {
    var lit := "?redirect_url=";
    assert lit == ['?'] + "redirect_url=";
    assert '?' !in "redirect_url=";
    CountAbsent("redirect_url=", '?');
    CountAppend("?", "redirect_url=", '?');
  }

  /** With a non-empty return path, the callback URL carries it percent-encoded
      in `redirect_path`, and the whole callback URL is percent-encoded again
      into `redirect_url`. */
  lemma LoginUrlWithPath(appBase: string, p: string)
    requires p != ""
    ensures GetLoginUrl(appBase, Some(p))
         == SsoBaseUrl + "?redirect_url="
            + EncodeURIComponent(appBase + CallbackRoute + "?redirect_path=" + EncodeURIComponent(p))
  {
  }

  /** Without a return path (absent or empty) the callback carries no `redirect_path`. */
  lemma LoginUrlWithoutPath(appBase: string, p: Option<string>)
    requires !Truthy(p)
    ensures GetLoginUrl(appBase, p) == GetLoginUrl(appBase, None)
    ensures GetLoginUrl(appBase, p) == SsoBaseUrl + "?redirect_url=" + EncodeURIComponent(appBase + CallbackRoute)
  {
  }

  lemma SsoBaseCount()
    ensures Count(SsoBaseUrl, '?') == 0
  {
    assert '?' !in SsoBaseUrl;
    CountAbsent(SsoBaseUrl, '?');
  }

  lemma LogoutBaseCount()
    ensures Count(SsoBaseUrl + "/logout", '?') == 0
  {
    assert '?' !in SsoBaseUrl + "/logout";
    CountAbsent(SsoBaseUrl + "/logout", '?');
  }

  lemma SsoBaseNoAmpersand()
    ensures '&' !in SsoBaseUrl
  {
  }

  lemma LogoutBaseNoAmpersand()
    ensures '&' !in SsoBaseUrl + "/logout"
  {
  }

  /** A head with one `?` and no `&`, followed by an encoded value, still has one `?` and no `&`. */
  lemma EncodedTail(head: string, value: string)
    requires Count(head, '?') == 1 && '&' !in head
    ensures Count(head + EncodeURIComponent(value), '?') == 1
    ensures '&' !in head + EncodeURIComponent(value)
  {
    NoDelimiters(value);
    CountAppend(head, EncodeURIComponent(value), '?');
  }

  lemma QueryHeadCount(base: string)
    requires Count(base, '?') == 0
    ensures Count(base + "?redirect_url=", '?') == 1
  {
    QueryPrefixCount();
    CountAppend(base, "?redirect_url=", '?');
  }

  lemma QueryHeadNoAmpersand(base: string)
    requires '&' !in base
    ensures '&' !in base + "?redirect_url="
  {
  }

  /** Whatever the application URL and the return path, the login URL has
      exactly one raw `?` and no raw `&`: the whole callback URL is one
      encoded query value. */
  lemma LoginUrlSingleQuery(appBase: string, p: Option<string>)
    ensures Count(GetLoginUrl(appBase, p), '?') == 1
    ensures '&' !in GetLoginUrl(appBase, p)
  {
    SsoBaseCount();
    SsoBaseNoAmpersand();
    QueryHeadCount(SsoBaseUrl);
    QueryHeadNoAmpersand(SsoBaseUrl);
    EncodedTail(SsoBaseUrl + "?redirect_url=", CallbackUrl(appBase, p));
  }

  /** The logout URL likewise has one raw `?` and no raw `&`. */
  lemma LogoutUrlSingleQuery(appBase: string)
    ensures Count(GetLogoutUrl(appBase), '?') == 1
    ensures '&' !in GetLogoutUrl(appBase)
  {
    LogoutBaseCount();
    LogoutBaseNoAmpersand();
    QueryHeadCount(SsoBaseUrl + "/logout");
    QueryHeadNoAmpersand(SsoBaseUrl + "/logout");
    assert SsoBaseUrl + "/logout" + "?redirect_url=" == SsoBaseUrl + "/logout?redirect_url=";
    EncodedTail(SsoBaseUrl + "/logout?redirect_url=", appBase);
  }

  /** The four routes and the four session keys are pairwise distinct. */
  lemma ConstantsDistinct()
    ensures |{CallbackRoute, LoginRoute, DashboardRoute, UnauthorizedRoute}| == 4
    ensures |{UserIdKey, AuthTokenKey, CompanyIdKey, UserProfileKey}| == 4
    ensures forall i, j :: 0 <= i < j < |SessionKeys| ==> SessionKeys[i] != SessionKeys[j]
  {
  }
}
