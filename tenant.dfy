/** The active-website ("tenant") resolver: the route-path rewrite for a new
    site id, and the provider state kept in step with the route, the session
    store and the website list. */
module Tenant {
  import opened Wrappers
  import opened Strings
  import opened Storage

  /** The session-storage key of the active website. */
  const StorageKey := "active_website_id"

  /** A website row as the list call returns it. */
  datatype Website = Website(id: string, name: string, primaryDomain: string, status: string)

  /** An entry of the website picker. */
  datatype WebsiteOption = WebsiteOption(id: string, name: string, domain: string, status: string)

  /** The picker entry for one website: its name, or its domain when the name is empty. */
  function ToOption(w: Website): (o: WebsiteOption)
    ensures o.id == w.id && o.domain == w.primaryDomain && o.status == w.status
    ensures w.name != "" ==> o.name == w.name
    ensures w.name == "" ==> o.name == w.primaryDomain
  {
    WebsiteOption(w.id, if w.name != "" then w.name else w.primaryDomain, w.primaryDomain, w.status)
  }

  /** `(data || []).map(...)`. */
  function WebsiteOptions(data: Option<seq<Website>>): (opts: seq<WebsiteOption>)
    ensures data.None? ==> opts == []
    ensures data.Some? ==> |opts| == |data.value|
    ensures data.Some? ==> forall i :: 0 <= i < |opts| ==> opts[i] == ToOption(data.value[i])
  {
    match data
    case None => []
    case Some(ws) => seq(|ws|, i requires 0 <= i < |ws| => ToOption(ws[i]))
  }

  // ---- replaceSiteInPath ----

  /** The position of the site id to replace: the segment after the first `s`,
      when there is one and it is non-empty; -1 otherwise. */
  function SiteSlot(parts: seq<string>): (k: int)
    ensures k == -1 || (1 <= k < |parts| && parts[k] != "")
    ensures k != -1 ==> parts[k - 1] == "s" && "s" !in parts[..k - 1]
    ensures k != -1 <==>
      (IndexOf(parts, "s") != -1 && IndexOf(parts, "s") + 1 < |parts| && parts[IndexOf(parts, "s") + 1] != "")
    ensures k != -1 ==> k == IndexOf(parts, "s") + 1
  {
    var s := IndexOf(parts, "s");
    if s != -1 && s + 1 < |parts| && parts[s + 1] != "" then
      assert "s" !in parts[..s] by {
        forall j | 0 <= j < s ensures parts[..s][j] != "s" { }
      }
      s + 1
    else -1
  }

  /** The path to go to when switching to site `newId`. */
  function ReplaceSiteInPath(pathname: Option<string>, newId: string): (r: string)
    ensures !Truthy(pathname) ==> r == "/"
    ensures |r| >= 1 && r[0] == '/'
  {
    if !Truthy(pathname) then "/"
    else RewriteParts(NonEmpty(Split(pathname.value, '/')), newId)
  }

  /** The target built from a path's non-empty segments: the segments with
      the site slot replaced, or the new site's dashboard when there is no slot. */
  function RewriteParts(parts: seq<string>, newId: string): (r: string)
    ensures |r| >= 1 && r[0] == '/'
  {
    var k := SiteSlot(parts);
    if k != -1 then "/" + Join(parts[k := newId], "/")
    else "/s/" + newId + "/dashboard"
  }

  /** A site id that can stand as one path segment. */
  predicate Segment(id: string) {
    id != "" && '/' !in id
  }

  /** No two consecutive slashes. */
  predicate NoDoubleSlash(s: string) {
    forall i :: 0 <= i && i + 1 < |s| ==> s[i] != '/' || s[i + 1] != '/'
  }

  /** Joining non-empty, slash-free segments with `/` leaves no empty segment. */
  lemma {:induction false} JoinSegmentsClean(ps: seq<string>)
    requires |ps| >= 1
    requires forall i :: 0 <= i < |ps| ==> Segment(ps[i])
    ensures var j := Join(ps, "/"); |j| > 0 && j[0] != '/' && j[|j| - 1] != '/' && NoDoubleSlash(j)
    decreases |ps|
  {
    if |ps| == 1 {
      assert Join(ps, "/") == ps[0];
      assert ps[0][0] in ps[0];
      assert ps[0][|ps[0]| - 1] in ps[0];
      forall i | 0 <= i && i + 1 < |ps[0]| ensures ps[0][i] != '/' {
        assert ps[0][i] in ps[0];
      }
    } else {
      var a := ps[0];
      var b := Join(ps[1..], "/");
      JoinSegmentsClean(ps[1..]);
      var j := a + "/" + b;
      assert Join(ps, "/") == j;
      assert a[0] in a;
      forall i | 0 <= i && i + 1 < |j| ensures j[i] != '/' || j[i + 1] != '/' {
        if i < |a| {
          assert j[i] == a[i];
          assert a[i] in a;
        } else if i == |a| {
          assert j[i + 1] == b[0];
        } else {
          assert j[i] == b[i - |a| - 1] && j[i + 1] == b[i - |a|];
        }
      }
    }
  }

  /** With a site slot, the result is the rewritten segments joined behind a `/`. */
  lemma RewriteBranch(path: string, newId: string)
    requires SiteSlot(NonEmpty(Split(path, '/'))) != -1
    ensures var parts := NonEmpty(Split(path, '/'));
            ReplaceSiteInPath(Some(path), newId) == "/" + Join(parts[SiteSlot(parts) := newId], "/")
  {
  }

  /** Replacing the slot of non-empty, slash-free segments by a segment keeps them so. */
  lemma RewrittenAreSegments(path: string, newId: string)
    requires Segment(newId)
    requires SiteSlot(NonEmpty(Split(path, '/'))) != -1
    ensures var parts := NonEmpty(Split(path, '/'));
            var q := parts[SiteSlot(parts) := newId];
            forall i :: 0 <= i < |q| ==> Segment(q[i])
  {
    var parts := NonEmpty(Split(path, '/'));
    var q := parts[SiteSlot(parts) := newId];
    forall i | 0 <= i < |q| ensures Segment(q[i]) {
      if i != SiteSlot(parts) { assert q[i] == parts[i] && parts[i] in Split(path, '/'); }
    }
  }

  /** In the rewrite branch only the site id changes: the result's segments
      are the path's non-empty segments with that one replaced. */
  lemma RewriteSegments(path: string, newId: string)
    requires Segment(newId)
    requires SiteSlot(NonEmpty(Split(path, '/'))) != -1
    ensures var parts := NonEmpty(Split(path, '/'));
            Split(ReplaceSiteInPath(Some(path), newId), '/') == [""] + parts[SiteSlot(parts) := newId]
  {
    var parts := NonEmpty(Split(path, '/'));
    var q := parts[SiteSlot(parts) := newId];
    RewriteBranch(path, newId);
    RewrittenAreSegments(path, newId);
    SlashJoinSplit(q);
  }

  /** `/` followed by slash-free segments joined with `/` splits back into an
      empty first piece and those segments. */
  lemma SlashJoinSplit(q: seq<string>)
    requires |q| >= 1
    requires forall i :: 0 <= i < |q| ==> Segment(q[i])
    ensures Split("/" + Join(q, "/"), '/') == [""] + q
  {
    var all := [""] + q;
    assert all[1..] == q;
    assert Join(all, "/") == "/" + Join(q, "/");
    forall i | 0 <= i < |all| ensures '/' !in all[i] {
      if i > 0 { assert all[i] == q[i - 1]; }
    }
    SplitJoin(all, '/');
  }

  /** `/` followed by non-empty, slash-free segments joined with `/` has no
      `//` and no trailing `/`. */
  lemma SlashJoinClean(q: seq<string>)
    requires |q| >= 1
    requires forall i :: 0 <= i < |q| ==> Segment(q[i])
    ensures var r := "/" + Join(q, "/"); NoDoubleSlash(r) && r[|r| - 1] != '/'
  {
    JoinSegmentsClean(q);
    var j := Join(q, "/");
    var r := "/" + j;
    forall i | 0 <= i && i + 1 < |r| ensures r[i] != '/' || r[i + 1] != '/' {
      if i == 0 { assert r[1] == j[0]; } else { assert r[i] == j[i - 1] && r[i + 1] == j[i]; }
    }
  }

  /** The rewrite branch never yields `//` or a trailing `/`. */
  lemma RewriteIsClean(path: string, newId: string)
    requires Segment(newId)
    requires SiteSlot(NonEmpty(Split(path, '/'))) != -1
    ensures var r := ReplaceSiteInPath(Some(path), newId); NoDoubleSlash(r) && r[|r| - 1] != '/'
  {
    var parts := NonEmpty(Split(path, '/'));
    RewriteBranch(path, newId);
    RewrittenAreSegments(path, newId);
    SlashJoinClean(parts[SiteSlot(parts) := newId]);
  }

  /** Without a site slot the target is the new site's dashboard. */
  lemma NoSlotGoesToDashboard(path: string, newId: string)
    requires path != ""
    requires SiteSlot(NonEmpty(Split(path, '/'))) == -1
    ensures ReplaceSiteInPath(Some(path), newId) == "/s/" + newId + "/dashboard"
  {
  }

  /** The path of page `page` of site `id`. */
  function SitePage(id: string, page: string): string {
    "/s/" + id + "/" + page
  }

  lemma JoinSitePage(id: string, page: string)
    ensures Join(["", "s", id, page], "/") == SitePage(id, page)
  {
    var d := ["", "s", id, page];
    assert d[1..] == ["s", id, page] && d[1..][1..] == [id, page] && d[1..][1..][1..] == [page];
    assert Join([page], "/") == page;
    assert Join([id, page], "/") == id + "/" + page;
    assert Join(["s", id, page], "/") == "s" + "/" + (id + "/" + page);
  }

  /** The non-empty segments of a site page path. */
  lemma SitePageSegments(id: string, page: string)
    requires Segment(id) && Segment(page)
    ensures NonEmpty(Split(SitePage(id, page), '/')) == ["s", id, page]
  {
    JoinSitePage(id, page);
    assert '/' !in "s";
    SplitJoin(["", "s", id, page], '/');
    NonEmptyDropsLeadingEmpty(["s", id, page]);
    NonEmptyKeeps(["s", id, page]);
  }

  /** Switching site on a site page stays on the same page of the new site. */
  lemma SwitchKeepsPage(id: string, page: string, newId: string)
    requires Segment(id) && Segment(page)
    ensures ReplaceSiteInPath(Some(SitePage(id, page)), newId) == SitePage(newId, page)
  {
    SitePageSegments(id, page);
    var d := ["s", id, page];
    assert IndexOf(d, "s") == 0;
    assert SiteSlot(d) == 1;
    assert d[1 := newId] == ["s", newId, page];
    JoinSitePage(newId, page);
    assert ["", "s", newId, page][1..] == ["s", newId, page];
  }

  /** A dashboard target switched again is the other site's dashboard. */
  lemma ReplaceDashboard(id1: string, id2: string)
    requires Segment(id1) && Segment(id2)
    ensures ReplaceSiteInPath(Some("/s/" + id1 + "/dashboard"), id2) == "/s/" + id2 + "/dashboard"
  {
    assert '/' !in "dashboard";
    assert "/s/" + id1 + "/dashboard" == SitePage(id1, "dashboard");
    assert "/s/" + id2 + "/dashboard" == SitePage(id2, "dashboard");
    SwitchKeepsPage(id1, "dashboard", id2);
  }

  /** Rewriting the site id keeps the slot where it was. */
  lemma SlotKept(parts: seq<string>, id: string)
    requires SiteSlot(parts) != -1 && id != ""
    ensures SiteSlot(parts[SiteSlot(parts) := id]) == SiteSlot(parts)
  {
    var k := SiteSlot(parts);
    var q := parts[k := id];
    assert IndexOf(q, "s") == k - 1 by {
      assert q[k - 1] == "s";
      forall j | 0 <= j < k - 1 ensures q[j] != "s" {
        assert parts[..k - 1][j] == parts[j];
      }
    }
  }

  /** The non-empty segments of a rewritten path are the rewritten segments. */
  lemma RewrittenParts(path: string, id: string)
    requires Segment(id)
    requires SiteSlot(NonEmpty(Split(path, '/'))) != -1
    ensures var parts := NonEmpty(Split(path, '/'));
            NonEmpty(Split(ReplaceSiteInPath(Some(path), id), '/')) == parts[SiteSlot(parts) := id]
  {
    var parts := NonEmpty(Split(path, '/'));
    var q := parts[SiteSlot(parts) := id];
    RewriteSegments(path, id);
    forall i | 0 <= i < |q| ensures q[i] != "" { }
    NonEmptyDropsLeadingEmpty(q);
    NonEmptyKeeps(q);
  }

  /** A non-empty path is rewritten from its non-empty segments alone. */
  lemma ReplaceFromParts(path: string, parts: seq<string>, id: string)
    requires path != "" && NonEmpty(Split(path, '/')) == parts
    ensures ReplaceSiteInPath(Some(path), id) == RewriteParts(parts, id)
  {
  }

  /** Rewriting a slot that was already rewritten is rewriting it once. */
  lemma RewritePartsTwice(parts: seq<string>, id1: string, id2: string)
    requires SiteSlot(parts) != -1 && id1 != ""
    ensures RewriteParts(parts[SiteSlot(parts) := id1], id2) == RewriteParts(parts, id2)
  {
    var k := SiteSlot(parts);
    SlotKept(parts, id1);
    assert parts[k := id1][k := id2] == parts[k := id2];
  }

  /** Switching twice through a site slot keeps the slot. */
  lemma ReplaceTwiceInSlot(path: string, id1: string, id2: string)
    requires Segment(id1) && Segment(id2)
    requires SiteSlot(NonEmpty(Split(path, '/'))) != -1
    ensures ReplaceSiteInPath(Some(ReplaceSiteInPath(Some(path), id1)), id2) == ReplaceSiteInPath(Some(path), id2)
  {
    var parts := NonEmpty(Split(path, '/'));
    var once := ReplaceSiteInPath(Some(path), id1);
    RewrittenParts(path, id1);
    ReplaceFromParts(once, parts[SiteSlot(parts) := id1], id2);
    RewritePartsTwice(parts, id1, id2);
    assert path != "";
    ReplaceFromParts(path, parts, id2);
  }

  /** Switching to one site and then another is switching to the second
      (for a known path; a missing path first becomes `/`). */
  lemma ReplaceTwice(path: string, id1: string, id2: string)
    requires path != ""
    requires Segment(id1) && Segment(id2)
    ensures ReplaceSiteInPath(Some(ReplaceSiteInPath(Some(path), id1)), id2) == ReplaceSiteInPath(Some(path), id2)
  {
    if SiteSlot(NonEmpty(Split(path, '/'))) != -1 {
      ReplaceTwiceInSlot(path, id1, id2);
    } else {
      ReplaceDashboard(id1, id2);
    }
  }

  /** From the root path a switch goes to the site's dashboard. */
  lemma RootGoesToDashboard(newId: string)
    ensures ReplaceSiteInPath(Some("/"), newId) == "/s/" + newId + "/dashboard"
  {
    assert Split("/", '/') == [""] + Split("", '/');
    assert NonEmpty(Split("/", '/')) == [];
  }

  // ---- Provider state ----

  /** The outcome of listing the websites: the rows (possibly null), or a failure. */
  datatype ListOutcome = Listed(data: Option<seq<Website>>) | ListFailed

  /** The provider state together with the session store. */
  datatype TenantView = TenantView(
    websiteId: Option<string>,
    websites: seq<WebsiteOption>,
    loading: bool,
    items: map<string, string>)

  /** The state after `loadWebsites` with the route's site id `activeSiteId`. */
  function AfterLoadWebsites(v: TenantView, activeSiteId: Option<string>, outcome: ListOutcome): (w: TenantView)
    ensures !w.loading
  {
    match outcome
    case ListFailed => v.(loading := false)
    case Listed(data) =>
      var opts := WebsiteOptions(data);
      if !Truthy(activeSiteId) && |opts| > 0 && !Truthy(v.websiteId) then
        v.(websites := opts, websiteId := Some(opts[0].id), items := v.items[StorageKey := opts[0].id], loading := false)
      else v.(websites := opts, loading := false)
  }

  /** The first website becomes active exactly when there is no route id, the
      list is non-empty and no website is active yet; otherwise the active
      website and the store are untouched. */
  lemma FirstWebsiteDefault(v: TenantView, activeSiteId: Option<string>, data: Option<seq<Website>>)
    ensures var w := AfterLoadWebsites(v, activeSiteId, Listed(data));
            w.websites == WebsiteOptions(data)
            && (if !Truthy(activeSiteId) && data.Some? && |data.value| > 0 && !Truthy(v.websiteId)
                then w.websiteId == Some(data.value[0].id) && w.items == v.items[StorageKey := data.value[0].id]
                else w.websiteId == v.websiteId && w.items == v.items)
  {
  }

  /** A failed list call leaves the list and the active website as they were. */
  lemma ListFailureKeepsState(v: TenantView, activeSiteId: Option<string>)
    ensures AfterLoadWebsites(v, activeSiteId, ListFailed) == v.(loading := false)
  {
  }

  /** A route site id is never replaced by the list default. */
  lemma RouteIdSurvivesLoad(v: TenantView, activeSiteId: Option<string>, outcome: ListOutcome)
    requires Truthy(activeSiteId)
    ensures AfterLoadWebsites(v, activeSiteId, outcome).websiteId == v.websiteId
    ensures AfterLoadWebsites(v, activeSiteId, outcome).items == v.items
  {
  }

  /** The state after the route-to-state sync effect. */
  function AfterSyncFromRoute(v: TenantView, activeSiteId: Option<string>): (w: TenantView)
    ensures !w.loading && w.websites == v.websites
  {
    var fromStorage := if StorageKey in v.items then Some(v.items[StorageKey]) else None;
    var candidate := FirstTruthy(activeSiteId, fromStorage);
    if candidate.Some? then
      v.(websiteId := candidate, items := v.items[StorageKey := candidate.value], loading := false)
    else v.(loading := false)
  }

  /** The route id wins over the stored id, the stored id is used otherwise,
      and with neither the active website and the store are untouched. */
  lemma SyncPrecedence(v: TenantView, activeSiteId: Option<string>)
    ensures var w := AfterSyncFromRoute(v, activeSiteId);
            (Truthy(activeSiteId) ==>
               w.websiteId == activeSiteId && w.items == v.items[StorageKey := activeSiteId.value])
            && (!Truthy(activeSiteId) && StorageKey in v.items && v.items[StorageKey] != "" ==>
               w.websiteId == Some(v.items[StorageKey]) && w.items == v.items)
            && (!Truthy(activeSiteId) && (StorageKey !in v.items || v.items[StorageKey] == "") ==>
               w.websiteId == v.websiteId && w.items == v.items)
  {
  }

  /** After syncing with a route id, state and store agree on it. */
  lemma SyncAgreesWithStore(v: TenantView, activeSiteId: Option<string>)
    requires Truthy(activeSiteId) || (StorageKey in v.items && v.items[StorageKey] != "")
    ensures var w := AfterSyncFromRoute(v, activeSiteId);
            w.websiteId.Some? && StorageKey in w.items && w.items[StorageKey] == w.websiteId.value
  {
  }

  /** The state after `setWebsiteId(id)`. */
  function AfterSetWebsiteId(v: TenantView, id: string): (w: TenantView)
    ensures w.websiteId == Some(id) && StorageKey in w.items && w.items[StorageKey] == id
    ensures forall k :: k in v.items && k != StorageKey ==> k in w.items && w.items[k] == v.items[k]
    ensures w.items.Keys == v.items.Keys + {StorageKey}
    ensures w.websites == v.websites && w.loading == v.loading
  {
    v.(websiteId := Some(id), items := v.items[StorageKey := id])
  }

  /** Choosing a website twice in a row is choosing it once. */
  lemma SetWebsiteIdIdempotent(v: TenantView, id: string)
    ensures AfterSetWebsiteId(AfterSetWebsiteId(v, id), id) == AfterSetWebsiteId(v, id)
  {
  }

  /** After choosing a website, a route sync with no route id keeps it. */
  lemma ChosenSiteSurvivesSync(v: TenantView, id: string)
    requires id != ""
    ensures AfterSyncFromRoute(AfterSetWebsiteId(v, id), None).websiteId == Some(id)
  {
  }

  /** The `TenantProvider`: its state, updated in place, and the store it writes. */
  class TenantProvider {
    var websiteId: Option<string>
    var websites: seq<WebsiteOption>
    var loading: bool
    const store: SessionStore

    constructor (store: SessionStore)
      ensures this.store == store
      ensures websiteId == None && websites == [] && loading
    {
      this.store := store;
      websiteId := None;
      websites := [];
      loading := true;
    }

    function View(): TenantView
      reads this, store
    {
      TenantView(websiteId, websites, loading, store.items)
    }

    /** `loadWebsites`, given the route's site id and the list call's outcome. */
    method LoadWebsites(activeSiteId: Option<string>, outcome: ListOutcome)
      modifies this, store
      ensures View() == AfterLoadWebsites(old(View()), activeSiteId, outcome)
    {
      if outcome.Listed? {
        var opts := WebsiteOptions(outcome.data);
        websites := opts;
        if !Truthy(activeSiteId) && |opts| > 0 && !Truthy(websiteId) {
          websiteId := Some(opts[0].id);
          store.SetItem(StorageKey, opts[0].id);
        }
      }
      loading := false;
    }

    /** The effect that syncs the route's site id into state and storage. */
    method SyncFromRoute(activeSiteId: Option<string>)
      modifies this, store
      ensures View() == AfterSyncFromRoute(old(View()), activeSiteId)
    {
      var fromStorage := store.GetItem(StorageKey);
      var candidate := FirstTruthy(activeSiteId, fromStorage);
      if candidate.Some? {
        websiteId := candidate;
        store.SetItem(StorageKey, candidate.value);
      }
      loading := false;
    }

    /** `setWebsiteId(id)`: stores the choice and returns the path navigated to. */
    method SetWebsiteId(id: string, pathname: Option<string>) returns (target: string)
      modifies this, store
      ensures View() == AfterSetWebsiteId(old(View()), id)
      ensures target == ReplaceSiteInPath(pathname, id)
    {
      websiteId := Some(id);
      store.SetItem(StorageKey, id);
      target := ReplaceSiteInPath(pathname, id);
    }
  }
}
