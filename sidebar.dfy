/** The sidebar's navigation: the site id its menu links use, the
    navigation a menu click performs, and the website picker. */
module Sidebar {
  import opened Wrappers
  import opened Strings
  import opened Storage
  import opened Tenant

  /** The site id used when nothing else is known. */
  const FallbackSiteId := "oranje"

  /** The pages the menu links to, as path segments after the site id. */
  const MenuPages: seq<string> := ["dashboard", "content", "zoekwoorden", "prestatie", "briefings", "instellingen"]

  /** The path a menu entry passes to `go`. */
  function MenuPath(i: nat): string
    requires i < |MenuPages|
  {
    "/" + MenuPages[i]
  }

  /** `websiteId || websites[0]?.id || 'oranje'`. */
  function DefaultId(websiteId: Option<string>, websites: seq<WebsiteOption>): (id: string)
    ensures id != ""
    ensures Truthy(websiteId) ==> id == websiteId.value
    ensures !Truthy(websiteId) && |websites| > 0 && websites[0].id != "" ==> id == websites[0].id
    ensures !Truthy(websiteId) && (|websites| == 0 || websites[0].id == "") ==> id == FallbackSiteId
  {
    var first := if |websites| > 0 then Some(websites[0].id) else None;
    OrElse(websiteId, OrElse(first, FallbackSiteId))
  }

  /** The path `go(path)` pushes: the active or default site, then `path`. */
  function GoTarget(websiteId: Option<string>, websites: seq<WebsiteOption>, path: string): (target: string)
    ensures target == "/s/" + DefaultId(websiteId, websites) + path
  {
    "/s/" + OrElse(websiteId, DefaultId(websiteId, websites)) + path
  }

  /** With neither an active site nor any website, menu links go to the fallback site. */
  lemma NoWebsiteGoesToFallback(path: string)
    ensures GoTarget(None, [], path) == "/s/oranje" + path
  {
  }

  /** Every menu page is a single path segment. */
  lemma MenuPagesAreSegments(i: nat)
    requires i < |MenuPages|
    ensures Segment(MenuPages[i])
  {
    assert MenuPages[i] in MenuPages;
    assert '/' !in "dashboard" && '/' !in "content" && '/' !in "zoekwoorden";
    assert '/' !in "prestatie" && '/' !in "briefings" && '/' !in "instellingen";
  }

  /** The menu target of a page is that page of the default site. */
  lemma GoTargetIsSitePage(websiteId: Option<string>, websites: seq<WebsiteOption>, page: string)
    ensures GoTarget(websiteId, websites, "/" + page) == SitePage(DefaultId(websiteId, websites), page)
  {
  }

  /** Switching site while on a menu page stays on that page of the new site. */
  lemma MenuTargetSurvivesSiteSwitch(websiteId: Option<string>, websites: seq<WebsiteOption>, i: nat, newId: string)
    requires i < |MenuPages|
    requires Segment(DefaultId(websiteId, websites)) && Segment(newId)
    ensures ReplaceSiteInPath(Some(GoTarget(websiteId, websites, MenuPath(i))), newId) == GoTarget(Some(newId), websites, MenuPath(i))
  {
    var page := MenuPages[i];
    MenuPagesAreSegments(i);
    GoTargetIsSitePage(websiteId, websites, page);
    GoTargetIsSitePage(Some(newId), websites, page);
    SwitchKeepsPage(DefaultId(websiteId, websites), page, newId);
  }

  /** The picker shows its "choose a website" placeholder only while no site is active. */
  predicate ShowPlaceholder(websiteId: Option<string>) {
    !Truthy(websiteId)
  }

  /** The tenant state after `go`: the default site is activated when none is. */
  function AfterGo(v: TenantView): (w: TenantView)
    ensures Truthy(v.websiteId) ==> w == v
    ensures !Truthy(v.websiteId) ==> w == AfterSetWebsiteId(v, DefaultId(v.websiteId, v.websites))
  {
    if Truthy(v.websiteId) then v else AfterSetWebsiteId(v, DefaultId(v.websiteId, v.websites))
  }

  /** After a menu click the site in the pushed path is the active site, and
      the picker no longer shows its placeholder. */
  lemma GoActivatesTarget(v: TenantView, path: string)
    ensures AfterGo(v).websiteId == Some(DefaultId(v.websiteId, v.websites))
    ensures GoTarget(v.websiteId, v.websites, path) == "/s/" + AfterGo(v).websiteId.value + path
    ensures !ShowPlaceholder(AfterGo(v).websiteId)
  {
  }

  /** Choosing a website from the picker removes the placeholder. */
  lemma SelectHidesPlaceholder(v: TenantView, chosen: string)
    requires chosen != ""
    ensures !ShowPlaceholder(AfterSetWebsiteId(v, chosen).websiteId)
  {
  }

  /** `go(path)`: activates the default site first when none is active (which
      navigates on its own), then pushes the menu target. Returns the paths
      navigated to, in order. */
  method Go(tenant: TenantProvider, pathname: Option<string>, path: string) returns (navigations: seq<string>)
    modifies tenant, tenant.store
    ensures tenant.View() == AfterGo(old(tenant.View()))
    ensures !Truthy(old(tenant.websiteId)) ==>
      navigations == [ReplaceSiteInPath(pathname, DefaultId(old(tenant.websiteId), old(tenant.websites))),
                      GoTarget(old(tenant.websiteId), old(tenant.websites), path)]
    ensures Truthy(old(tenant.websiteId)) ==> navigations == [GoTarget(old(tenant.websiteId), old(tenant.websites), path)]
  {
    var id := DefaultId(tenant.websiteId, tenant.websites);
    var target := GoTarget(tenant.websiteId, tenant.websites, path);
    navigations := [];
    if !Truthy(tenant.websiteId) {
      var first := tenant.SetWebsiteId(id, pathname);
      navigations := [first];
    }
    navigations := navigations + [target];
  }

  /** A change of the picker selects the chosen website. */
  method OnSelect(tenant: TenantProvider, chosen: string, pathname: Option<string>) returns (navigation: string)
    modifies tenant, tenant.store
    ensures tenant.View() == AfterSetWebsiteId(old(tenant.View()), chosen)
    ensures navigation == ReplaceSiteInPath(pathname, chosen)
  {
    navigation := tenant.SetWebsiteId(chosen, pathname);
  }
}
