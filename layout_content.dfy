/** The application shell: the page title derived from the path, which
    paths skip the guard and sidebar, and the small display fallbacks. */
module LayoutContent {
  import opened Wrappers
  import opened Strings
  import opened Api
  import opened AuthContext

  /** The path fragments tried for `/s/` routes, in order, and their titles. */
  const SiteKeywords: seq<string> := ["/dashboard", "/content", "/zoekwoorden", "/prestatie", "/briefings", "/instellingen"]
  const SiteTitles: seq<string> := ["Dashboard", "Content", "Zoekwoorden", "Prestatie", "Briefings", "Instellingen"]
  const GenericSiteTitle := "SEO Command Center"

  /** The title of a `/s/` route, as the chain of `includes` tests computes it. */
  function SiteTitle(p: string): string {
    if Includes(p, "/dashboard") then "Dashboard"
    else if Includes(p, "/content") then "Content"
    else if Includes(p, "/zoekwoorden") then "Zoekwoorden"
    else if Includes(p, "/prestatie") then "Prestatie"
    else if Includes(p, "/briefings") then "Briefings"
    else if Includes(p, "/instellingen") then "Instellingen"
    else GenericSiteTitle
  }

  /** The first keyword at or after `i` that `p` includes, or -1. */
  function FirstMatch(p: string, i: nat): (j: int)
    requires i <= |SiteKeywords|
    ensures j == -1 || (i <= j < |SiteKeywords| && Includes(p, SiteKeywords[j]))
    ensures j == -1 ==> forall m :: i <= m < |SiteKeywords| ==> !Includes(p, SiteKeywords[m])
    ensures j != -1 ==> forall m :: i <= m < j ==> !Includes(p, SiteKeywords[m])
    decreases |SiteKeywords| - i
  {
    if i == |SiteKeywords| then -1
    else if Includes(p, SiteKeywords[i]) then i
    else FirstMatch(p, i + 1)
  }

  /** The chain picks the title of the first keyword the path includes. */
  lemma SiteTitleIsFirstMatch(p: string)
    ensures var j := FirstMatch(p, 0);
            SiteTitle(p) == if j == -1 then GenericSiteTitle else SiteTitles[j]
  {
  }

  /** The titles of the fixed (legacy) routes. */
  function LegacyTitle(p: string): (t: Option<string>)
    ensures t.Some? ==> t.value != ""
  {
    if p == "/" then Some("Dashboard")
    else if p == "/producten" then Some("Producten")
    else if p == "/favorieten" then Some("Favorieten")
    else if p == "/uitkomsten" then Some("Uitkomsten")
    else if p == "/in-ontwikkeling" then Some("In ontwikkeling")
    else if p == "/instellingen" then Some("Instellingen")
    else if p == "/support" then Some("Support")
    else None
  }

  /** `s.charAt(0).toUpperCase() + s.slice(1)` (ASCII case mapping). */
  function Capitalize(s: string): (r: string)
    ensures |r| == |s|
    ensures |s| > 0 ==> r[0] == UpperChar(s[0]) && r[1..] == s[1..]
  {
    if s == "" then "" else [UpperChar(s[0])] + s[1..]
  }

  function CapitalizeAll(parts: seq<string>): (r: seq<string>)
    ensures |r| == |parts| && forall i :: 0 <= i < |parts| ==> r[i] == Capitalize(parts[i])
  {
    seq(|parts|, i requires 0 <= i < |parts| => Capitalize(parts[i]))
  }

  /** The title of any other route: its segments capitalised and joined by ` / `. */
  function DefaultTitle(p: string): string {
    var clean := if |p| > 0 && p[0] == '/' then p[1..] else p;
    if clean == "" then "Pagina" else Join(CapitalizeAll(Split(clean, '/')), " / ")
  }

  /** The page title for the current pathname (null counts as `/`). */
  function PageTitle(pathname: Option<string>): (title: string)
    ensures var p := OrElse(pathname, "/");
            StartsWith(p, "/s/") ==> title == SiteTitle(p)
    ensures var p := OrElse(pathname, "/");
            !StartsWith(p, "/s/") && LegacyTitle(p).Some? ==> title == LegacyTitle(p).value
  {
    var p := OrElse(pathname, "/");
    if StartsWith(p, "/s/") then SiteTitle(p)
    else match LegacyTitle(p)
         case Some(t) => t
         case None => DefaultTitle(p)
  }

  /** A missing or empty pathname is titled as the root. */
  lemma MissingPathIsDashboard()
    ensures PageTitle(None) == "Dashboard"
    ensures PageTitle(Some("")) == "Dashboard"
  {
  }

  /** Any `/s/` path containing `/dashboard` is titled Dashboard, whatever follows it. */
  lemma DashboardWins(rest: string, tail: string)
    ensures PageTitle(Some("/s/" + rest + "/dashboard" + tail)) == "Dashboard"
  {
    var p := "/s/" + rest + "/dashboard" + tail;
    assert p == ("/s/" + rest) + "/dashboard" + tail;
    IncludesInfix("/s/" + rest, "/dashboard", tail);
    assert p[..3] == "/s/";
  }

  /** Because the tests are substring tests, a content page of a site whose
      id starts with `dashboard` is titled Dashboard. */
  lemma SiteIdCanShadowTitle()
    ensures PageTitle(Some("/s/dashboards/content")) == "Dashboard"
  {
    assert "/s/dashboards/content" == "/s" + "/dashboard" + "s/content";
    IncludesInfix("/s", "/dashboard", "s/content");
    assert "/s/dashboards/content"[..3] == "/s/";
  }

  /** A route of any other shape keeps its segments, each capitalised. */
  lemma DefaultTitleSegments(p: string)
    requires |p| > 1 && p[0] == '/' && !StartsWith(p, "/s/") && LegacyTitle(p).None?
    ensures PageTitle(Some(p)) == Join(CapitalizeAll(Split(p[1..], '/')), " / ")
  {
  }

  /** `pathname || '/'` is never empty and `/` has a fixed title, so the
      `Pagina` fallback of the default title is never taken by `PageTitle`. */
  lemma DefaultTitleNeverFallsBack(pathname: Option<string>)
    ensures var p := OrElse(pathname, "/");
            var clean := if |p| > 0 && p[0] == '/' then p[1..] else p;
            !StartsWith(p, "/s/") && LegacyTitle(p).None? ==>
              clean != "" && PageTitle(pathname) == Join(CapitalizeAll(Split(clean, '/')), " / ")
  {
    var p := OrElse(pathname, "/");
    if |p| == 1 && p[0] == '/' {
      assert p == "/";
    }
  }

  /** Paths under `/auth/` render only their children: no tenant, sidebar or guard. */
  predicate IsAuthPage(pathname: Option<string>) {
    pathname.Some? && StartsWith(pathname.value, "/auth/")
  }

  /** What the shell renders around the page. */
  datatype Shell = BareChildren | Guarded(sidebarCompanyId: string, greeting: string, title: string, showBack: bool)

  /** The sidebar's company id: the profile's, or `unknown`. */
  function SidebarCompanyId(profile: Option<Profile>): (id: string)
    ensures id != ""
    ensures profile.Some? && profile.value.companyId != "" ==> id == profile.value.companyId
    ensures !(profile.Some? && profile.value.companyId != "") ==> id == "unknown"
  {
    if profile.Some? && profile.value.companyId != "" then profile.value.companyId else "unknown"
  }

  /** The greeting name: profile name, profile email, user email, or `Gebruiker`. */
  function GreetingName(profile: Option<Profile>, user: Option<User>): (name: string)
    ensures name != ""
    ensures profile.Some? && Truthy(profile.value.name) ==> name == profile.value.name.value
    ensures profile.Some? && !Truthy(profile.value.name) && profile.value.email != "" ==> name == profile.value.email
    ensures profile.None? && user.Some? && Truthy(user.value.email) ==> name == user.value.email.value
    ensures (profile.None? || (!Truthy(profile.value.name) && profile.value.email == "")) && user.Some? && Truthy(user.value.email)
      ==> name == user.value.email.value
    ensures (profile.None? || (!Truthy(profile.value.name) && profile.value.email == "")) && !(user.Some? && Truthy(user.value.email))
      ==> name == "Gebruiker"
  {
    var profileName := if profile.Some? then profile.value.name else None;
    var profileEmail := if profile.Some? then Some(profile.value.email) else None;
    var userEmail := if user.Some? then user.value.email else None;
    OrElse(profileName, OrElse(profileEmail, OrElse(userEmail, "Gebruiker")))
  }

  /** The back button shows on every path but the root (also when the path is unknown). */
  function ShowBack(pathname: Option<string>): (show: bool)
    ensures show <==> pathname != Some("/")
  {
    pathname != Some("/")
  }

  /** `LayoutContent`. */
  function Layout(pathname: Option<string>, user: Option<User>, profile: Option<Profile>): (s: Shell)
    ensures s.BareChildren? <==> IsAuthPage(pathname)
    ensures s.Guarded? ==> s.title == PageTitle(pathname) && s.showBack == ShowBack(pathname)
    ensures s.Guarded? ==> s.sidebarCompanyId == SidebarCompanyId(profile) && s.greeting == GreetingName(profile, user)
  {
    if IsAuthPage(pathname) then BareChildren
    else Guarded(SidebarCompanyId(profile), GreetingName(profile, user), PageTitle(pathname), ShowBack(pathname))
  }

  /** The SSO callback and login routes are never behind the guard. */
  lemma AuthRoutesAreBare(user: Option<User>, profile: Option<Profile>)
    ensures Layout(Some("/auth/sso-callback"), user, profile) == BareChildren
    ensures Layout(Some("/auth/login"), user, profile) == BareChildren
    ensures Layout(Some("/auth/unauthorized"), user, profile) == BareChildren
  {
    assert "/auth/sso-callback"[..6] == "/auth/";
    assert "/auth/login"[..6] == "/auth/";
    assert "/auth/unauthorized"[..6] == "/auth/";
  }

  /** An unknown pathname is titled as the root yet still shows the back button. */
  lemma MissingPathShowsBack()
    ensures PageTitle(None) == PageTitle(Some("/")) && ShowBack(None) && !ShowBack(Some("/"))
  {
  }
}
