/** The authentication provider: the profile fallback chain, the reducer
    driven by the initial session, auth events and sign-out, and the store
    writes that go with each step. */
module AuthContext {
  import opened Wrappers
  import opened Strings
  import opened AuthConfig
  import opened Storage
  import opened Api

  /** The user metadata fields the provider reads. */
  datatype Meta = Meta(name: Option<string>, fullName: Option<string>, companyId: Option<string>, role: Option<string>)

  datatype User = User(id: string, email: Option<string>, meta: Meta)

  datatype Session = Session(user: User, accessToken: string)

  /** A row of the `profiles` table. */
  datatype ProfileRow = ProfileRow(
    userId: Option<string>,
    email: Option<string>,
    fullName: Option<string>,
    companyId: Option<string>,
    profileRole: Option<string>,
    companyName: Option<string>,
    phoneNumber: Option<string>,
    profileRoleName: Option<string>)

  /** The outcome of the profile query. */
  datatype ProfileQuery = QueryError | QueryRow(row: ProfileRow) | QueryEmpty | QueryThrows

  /** The outcome of the company-name query. */
  datatype CompanyLookup = LookupError | LookupThrows | LookupRow(name: Option<string>)

  /** What a profile resolution does: nothing, or store this profile (and
      write its company id when `writeCompanyId`). */
  datatype Resolution = Unchanged | Resolved(profile: Profile, writeCompanyId: bool)

  datatype AuthEvent = SignedIn | SignedOut | OtherEvent(name: string)

  /** `fetchCompanyName`: the company's non-empty name, or null; never fails. */
  function FetchCompanyName(lookup: CompanyLookup): (r: Option<string>)
    ensures r.Some? <==> lookup.LookupRow? && Truthy(lookup.name)
    ensures r.Some? ==> r == lookup.name
  {
    match lookup
    case LookupRow(name) => if Truthy(name) then name else None
    case _ => None
  }

  /** The company name is looked up only for a row with a company id and no company name. */
  predicate NeedsCompanyLookup(row: ProfileRow) {
    Truthy(row.companyId) && !Truthy(row.companyName)
  }

  /** The profile built from session metadata when the profile query errs. */
  function FallbackProfile(u: User): (p: Profile)
    ensures p.id == u.id
    ensures p.email == OrElse(u.email, "unknown@example.com")
    ensures Truthy(u.meta.name) ==> p.name == u.meta.name
    ensures !Truthy(u.meta.name) && Truthy(u.meta.fullName) ==> p.name == u.meta.fullName
    ensures !Truthy(u.meta.name) && !Truthy(u.meta.fullName) && Truthy(u.email) ==> p.name == u.email
    ensures !Truthy(u.meta.name) && !Truthy(u.meta.fullName) && !Truthy(u.email) ==> p.name == Some("Gebruiker")
    ensures p.companyId == OrElse(u.meta.companyId, "unknown")
    ensures p.role == Some(OrElse(u.meta.role, "user"))
    ensures p.companyName == None && p.phoneNumber == None && p.profileRoleName == None
  {
    Profile(
      u.id,
      OrElse(u.email, "unknown@example.com"),
      Some(OrElse(u.meta.name, OrElse(u.meta.fullName, OrElse(u.email, "Gebruiker")))),
      OrElse(u.meta.companyId, "unknown"),
      Some(OrElse(u.meta.role, "user")),
      None, None, None)
  }

  /** The profile mapped from a found row, given the company name in effect. */
  function MappedProfile(u: User, row: ProfileRow, companyName: Option<string>): (p: Profile)
    ensures p.id == OrElse(row.userId, u.id)
    ensures Truthy(row.email) ==> p.email == row.email.value
    ensures !Truthy(row.email) ==> p.email == OrElse(u.email, "unknown@example.com")
    ensures p.name == Some(OrElse(row.fullName, OrElse(row.email, "Gebruiker")))
    ensures p.companyId == OrElse(row.companyId, "unknown")
    ensures p.role == Some(OrElse(row.profileRole, "user"))
    ensures Truthy(companyName) ==> p.companyName == companyName
    ensures !Truthy(companyName) ==> p.companyName == row.companyName
    ensures p.phoneNumber == row.phoneNumber && p.profileRoleName == row.profileRoleName
  {
    Profile(
      OrElse(row.userId, u.id),
      OrElse(row.email, OrElse(u.email, "unknown@example.com")),
      Some(OrElse(row.fullName, OrElse(row.email, "Gebruiker"))),
      OrElse(row.companyId, "unknown"),
      Some(OrElse(row.profileRole, "user")),
      if Truthy(companyName) then companyName else row.companyName,
      row.phoneNumber,
      row.profileRoleName)
  }

  /** The last-resort profile when the lookup throws. */
  function BasicProfile(u: User): (p: Profile)
    ensures p.id == u.id && p.email == OrElse(u.email, "unknown@example.com")
    ensures p.name == Some(OrElse(u.email, "Gebruiker"))
    ensures p.companyId == "unknown" && p.role == Some("user")
  {
    Profile(u.id, OrElse(u.email, "unknown@example.com"), Some(OrElse(u.email, "Gebruiker")), "unknown", Some("user"), None, None, None)
  }

  /** `fetchUserProfileAndCompany` for a session, given the query outcomes. */
  function ResolveProfile(s: Session, q: ProfileQuery, lookup: CompanyLookup): (r: Resolution)
    ensures q.QueryEmpty? <==> r.Unchanged?
    ensures q.QueryError? ==> r == Resolved(FallbackProfile(s.user), true)
    ensures q.QueryThrows? ==> r == Resolved(BasicProfile(s.user), false)
    ensures q.QueryRow? && NeedsCompanyLookup(q.row) ==>
      r == Resolved(MappedProfile(s.user, q.row, FetchCompanyName(lookup)), true)
    ensures q.QueryRow? && !NeedsCompanyLookup(q.row) ==>
      r == Resolved(MappedProfile(s.user, q.row, q.row.companyName), true)
  {
    match q
    case QueryError =>
      var p := FallbackProfile(s.user);
      Resolved(p, p.companyId != "")
    case QueryRow(row) =>
      var companyName := if NeedsCompanyLookup(row) then FetchCompanyName(lookup) else row.companyName;
      var p := MappedProfile(s.user, row, companyName);
      Resolved(p, p.companyId != "")
    case QueryEmpty => Unchanged
    case QueryThrows => Resolved(BasicProfile(s.user), false)
  }

  /** Every resolved profile has a non-empty email, name, company id and role. */
  lemma ResolvedProfileComplete(s: Session, q: ProfileQuery, lookup: CompanyLookup)
    ensures var r := ResolveProfile(s, q, lookup);
            r.Resolved? ==> r.profile.email != "" && Truthy(r.profile.name)
                            && r.profile.companyId != "" && Truthy(r.profile.role)
    ensures var r := ResolveProfile(s, q, lookup);
            r.Resolved? && s.user.id != "" ==> r.profile.id != ""
  {
  }

  /** The company query's outcome matters only when the lookup is needed. */
  lemma CompanyLookupIrrelevant(s: Session, q: ProfileQuery, l1: CompanyLookup, l2: CompanyLookup)
    requires !(q.QueryRow? && NeedsCompanyLookup(q.row))
    ensures ResolveProfile(s, q, l1) == ResolveProfile(s, q, l2)
  {
  }

  /** A failed company lookup leaves the row's own (empty or missing) company name. */
  lemma FailedLookupKeepsRowName(s: Session, row: ProfileRow, lookup: CompanyLookup)
    requires NeedsCompanyLookup(row) && !lookup.LookupRow?
    ensures ResolveProfile(s, QueryRow(row), lookup).profile.companyName == row.companyName
  {
  }

  // ---- Provider state ----

  /** The provider state together with the session store. */
  datatype AuthView = AuthView(
    user: Option<User>,
    session: Option<Session>,
    profile: Option<Profile>,
    loading: bool,
    items: map<string, string>)

  /** `session?.user ?? null`. */
  function UserOf(s: Option<Session>): (u: Option<User>)
    ensures u.Some? <==> s.Some?
    ensures s.Some? ==> u.value == s.value.user
  {
    if s.Some? then Some(s.value.user) else None
  }

  /** The user shown is always the session's user. */
  predicate Consistent(v: AuthView) {
    v.user == UserOf(v.session)
  }

  /** The store keys a resolution writes: the profile, and the company id when it is written and non-empty. */
  function WrittenKeys(r: Resolution): set<string>
    requires r.Resolved?
  {
    {UserProfileKey} + (if r.writeCompanyId && r.profile.companyId != "" then {CompanyIdKey} else {})
  }

  /** The effect of a resolution on state and store. */
  function ApplyResolution(v: AuthView, r: Resolution): (w: AuthView)
    ensures r.Unchanged? ==> w == v
    ensures r.Resolved? ==> w.profile == Some(r.profile)
    ensures r.Resolved? ==> UserProfileKey in w.items && w.items[UserProfileKey] == SerializeProfile(r.profile)
    ensures r.Resolved? && r.writeCompanyId && r.profile.companyId != "" ==>
      GetAuthData(w.items).companyId == r.profile.companyId
    ensures r.Resolved? && !r.writeCompanyId ==> GetAuthData(w.items) == GetAuthData(v.items)
    ensures r.Resolved? ==> w.items.Keys == v.items.Keys + WrittenKeys(r)
    ensures r.Resolved? ==> forall k :: k in v.items && k !in WrittenKeys(r) ==> w.items[k] == v.items[k]
    ensures w.user == v.user && w.session == v.session && w.loading == v.loading
  {
    match r
    case Unchanged => v
    case Resolved(p, write) =>
      var items := AfterSetUserProfile(v.items, p);
      var items2 := if write then AfterSetAuthData(items, AuthUpdate(None, None, Some(p.companyId))) else items;
      v.(items := items2, profile := Some(p))
  }

  /** A resolved profile reads back from the store. */
  lemma ResolutionStored(v: AuthView, r: Resolution)
    requires r.Resolved?
    ensures GetUserProfile(ApplyResolution(v, r).items) == Cached(r.profile)
  {
    var w := ApplyResolution(v, r);
    ProfileRoundTrip(r.profile);
    assert w.items[UserProfileKey] == SerializeProfile(r.profile);
  }

  /** Applying the same resolution twice is applying it once. */
  lemma ApplyResolutionIdempotent(v: AuthView, r: Resolution)
    ensures ApplyResolution(ApplyResolution(v, r), r) == ApplyResolution(v, r)
  {
  }

  /** An empty query result stores nothing and keeps the profile. */
  lemma EmptyQueryChangesNothing(v: AuthView, s: Session, lookup: CompanyLookup)
    ensures ApplyResolution(v, ResolveProfile(s, QueryEmpty, lookup)) == v
  {
  }

  /** On an exception the basic profile is stored but the company id is not written. */
  lemma ThrowKeepsCompanyId(v: AuthView, s: Session, lookup: CompanyLookup)
    ensures var w := ApplyResolution(v, ResolveProfile(s, QueryThrows, lookup));
            w.profile == Some(BasicProfile(s.user))
            && (CompanyIdKey in w.items <==> CompanyIdKey in v.items)
            && (CompanyIdKey in v.items ==> w.items[CompanyIdKey] == v.items[CompanyIdKey])
  {
  }

  /** On a query error or a found row the company id is always written. */
  lemma ResolvedWritesCompanyId(v: AuthView, s: Session, q: ProfileQuery, lookup: CompanyLookup)
    requires q.QueryError? || q.QueryRow?
    ensures var w := ApplyResolution(v, ResolveProfile(s, q, lookup));
            CompanyIdKey in w.items && w.items[CompanyIdKey] == w.profile.value.companyId
  {
    ResolvedProfileComplete(s, q, lookup);
  }

  /** The profile stored on mount while the remote flow is disabled. */
  const DemoProfile := Profile("local-user", "user@local", Some("Gebruiker"), "demo-company", Some("user"), None, None, None)

  /** Signed out, not loading, with `p` as the profile in state and store. */
  function AfterInstallProfile(v: AuthView, p: Profile): (w: AuthView)
    ensures w.user == None && w.session == None && w.profile == Some(p) && !w.loading
    ensures Consistent(w)
  {
    AuthView(None, None, Some(p), false, AfterSetUserProfile(v.items, p))
  }

  /** The mount effect that installs the demo profile. */
  function AfterDemoMount(v: AuthView): (w: AuthView)
    ensures w.user == None && w.session == None && w.profile == Some(DemoProfile) && !w.loading
    ensures Consistent(w)
  {
    AfterInstallProfile(v, DemoProfile)
  }

  /** After mounting, the stored profile reads back as the demo profile. */
  lemma DemoProfileStored(v: AuthView)
    ensures GetUserProfile(AfterDemoMount(v).items) == Cached(DemoProfile)
  {
    UserProfileRoundTrip(v.items, DemoProfile);
  }

  /** The credentials written for a session. */
  function SessionCredentials(s: Session): AuthUpdate {
    AuthUpdate(Some(s.user.id), Some(s.accessToken), None)
  }

  /** The state once the initial session is known. With a session the
      credentials are written and the profile resolution is started but not
      awaited (it lands later through `ApplyResolution`); without one a
      cached profile is adopted. A cached value that does not parse makes the
      handler throw before loading is cleared. */
  function AfterInitialSession(v: AuthView, s: Option<Session>): (w: AuthView)
    ensures w.session == s && Consistent(w)
    ensures s.Some? ==> w.items == AfterSetAuthData(v.items, SessionCredentials(s.value))
                        && w.profile == v.profile && !w.loading
    ensures s.None? ==> w.items == v.items
    ensures s.None? && GetUserProfile(v.items).Cached? ==> w.profile == Some(GetUserProfile(v.items).profile) && !w.loading
    ensures s.None? && GetUserProfile(v.items).NoProfile? ==> w.profile == v.profile && !w.loading
    ensures s.None? && GetUserProfile(v.items).Unreadable? ==> w.profile == v.profile && w.loading == v.loading
  {
    var v1 := v.(session := s, user := UserOf(s));
    if s.Some? then
      v1.(items := AfterSetAuthData(v.items, SessionCredentials(s.value)), loading := false)
    else
      match GetUserProfile(v.items)
      case NoProfile => v1.(loading := false)
      case Cached(p) => v1.(profile := Some(p), loading := false)
      case Unreadable => v1
  }

  /** The state after an auth-state event; a `SIGNED_IN` awaits its profile resolution. */
  function AfterAuthEvent(v: AuthView, event: AuthEvent, s: Option<Session>, q: ProfileQuery, lookup: CompanyLookup): (w: AuthView)
    ensures w.session == s && Consistent(w) && !w.loading
  {
    var v1 := v.(session := s, user := UserOf(s));
    var v2 :=
      if event.SignedIn? && s.Some? then SignedInStep(v1, s.value, q, lookup)
      else if event.SignedOut? then SignedOutStep(v1)
      else v1;
    v2.(loading := false)
  }

  /** The `SIGNED_IN` branch: store the credentials, then the resolved profile. */
  function SignedInStep(v: AuthView, s: Session, q: ProfileQuery, lookup: CompanyLookup): (w: AuthView)
    ensures w.user == v.user && w.session == v.session && w.loading == v.loading
  {
    ApplyResolution(v.(items := AfterSetAuthData(v.items, SessionCredentials(s))), ResolveProfile(s, q, lookup))
  }

  /** The `SIGNED_OUT` branch: clear the store and the profile. */
  function SignedOutStep(v: AuthView): (w: AuthView)
    ensures w.user == v.user && w.session == v.session && w.loading == v.loading
  {
    v.(items := AfterClearAuthData(v.items), profile := None)
  }

  /** `SIGNED_IN` stores the session's credentials and the resolved profile. */
  lemma SignedInStoresSession(v: AuthView, s: Session, q: ProfileQuery, lookup: CompanyLookup)
    requires s.user.id != "" && s.accessToken != ""
    requires !q.QueryEmpty?
    ensures var w := AfterAuthEvent(v, SignedIn, Some(s), q, lookup);
            IsAuthenticated(w.items)
            && GetAuthData(w.items).userId == s.user.id
            && GetAuthData(w.items).authToken == s.accessToken
            && w.profile == Some(ResolveProfile(s, q, lookup).profile)
            && GetUserProfile(w.items) == Cached(w.profile.value)
  {
    var v1 := v.(session := Some(s), user := UserOf(Some(s)));
    SignedInStepStores(v1, s, q, lookup);
    assert AfterAuthEvent(v, SignedIn, Some(s), q, lookup) == SignedInStep(v1, s, q, lookup).(loading := false);
  }

  /** The `SIGNED_IN` branch on its own: credentials and resolved profile are stored. */
  lemma SignedInStepStores(v: AuthView, s: Session, q: ProfileQuery, lookup: CompanyLookup)
    requires s.user.id != "" && s.accessToken != ""
    requires !q.QueryEmpty?
    ensures var w := SignedInStep(v, s, q, lookup);
            IsAuthenticated(w.items)
            && GetAuthData(w.items).userId == s.user.id
            && GetAuthData(w.items).authToken == s.accessToken
            && w.profile == Some(ResolveProfile(s, q, lookup).profile)
            && GetUserProfile(w.items) == Cached(w.profile.value)
  {
    var v3 := v.(items := AfterSetAuthData(v.items, SessionCredentials(s)));
    var r := ResolveProfile(s, q, lookup);
    ResolutionStored(v3, r);
    var w := ApplyResolution(v3, r);
    assert w == SignedInStep(v, s, q, lookup);
    assert UserIdKey in w.items && w.items[UserIdKey] == s.user.id;
    assert AuthTokenKey in w.items && w.items[AuthTokenKey] == s.accessToken;
    IsAuthenticatedIff(w.items);
  }

  /** `SIGNED_OUT` clears the session keys and the profile, and keeps every other key. */
  lemma SignedOutClears(v: AuthView, s: Option<Session>, q: ProfileQuery, lookup: CompanyLookup)
    ensures var w := AfterAuthEvent(v, SignedOut, s, q, lookup);
            w.profile == None && !IsAuthenticated(w.items) && GetUserProfile(w.items) == NoProfile
            && (forall k :: k !in SessionKeys ==> (k in w.items <==> k in v.items))
            && (forall k :: k !in SessionKeys && k in v.items ==> w.items[k] == v.items[k])
  {
    ClearedIsSignedOut(v.items);
  }

  /** Other events (and `SIGNED_IN` without a session) set only session, user and loading. */
  lemma OtherEventsKeepProfile(v: AuthView, event: AuthEvent, s: Option<Session>, q: ProfileQuery, lookup: CompanyLookup)
    requires event.OtherEvent? || (event.SignedIn? && s.None?)
    ensures AfterAuthEvent(v, event, s, q, lookup) == v.(session := s, user := UserOf(s), loading := false)
  {
  }

  /** `signOut`: clears store and state only when the remote sign-out resolves. */
  function AfterSignOut(v: AuthView, remoteOk: bool): (w: AuthView)
    ensures !remoteOk ==> w == v
    ensures remoteOk ==> w.user == None && w.session == None && w.profile == None
                         && w.items == AfterClearAuthData(v.items) && w.loading == v.loading
  {
    if remoteOk then v.(items := AfterClearAuthData(v.items), user := None, session := None, profile := None)
    else v
  }

  /** A successful sign-out leaves the state a `SIGNED_OUT` event with no
      session would, apart from the loading flag. */
  lemma SignOutMatchesSignedOutEvent(v: AuthView, q: ProfileQuery, lookup: CompanyLookup)
    ensures AfterSignOut(v, true) == AfterAuthEvent(v, SignedOut, None, q, lookup).(loading := v.loading)
  {
  }

  /** `refreshProfile`: resolves again when the session has a user id. */
  function AfterRefresh(v: AuthView, q: ProfileQuery, lookup: CompanyLookup): (w: AuthView)
    ensures v.session.None? || v.session.value.user.id == "" ==> w == v
    ensures v.session.Some? && v.session.value.user.id != "" ==>
      w == ApplyResolution(v, ResolveProfile(v.session.value, q, lookup))
  {
    if v.session.Some? && v.session.value.user.id != "" then
      ApplyResolution(v, ResolveProfile(v.session.value, q, lookup))
    else v
  }

  /** Refreshing twice with the same query outcomes is refreshing once. */
  lemma RefreshIdempotent(v: AuthView, q: ProfileQuery, lookup: CompanyLookup)
    ensures AfterRefresh(AfterRefresh(v, q, lookup), q, lookup) == AfterRefresh(v, q, lookup)
  {
    if v.session.Some? && v.session.value.user.id != "" {
      ApplyResolutionIdempotent(v, ResolveProfile(v.session.value, q, lookup));
    }
  }

  /** Every step keeps the user equal to the session's user. */
  lemma StepsKeepConsistent(v: AuthView, s: Option<Session>, event: AuthEvent, q: ProfileQuery, lookup: CompanyLookup, ok: bool, r: Resolution)
    requires Consistent(v)
    ensures Consistent(AfterSignOut(v, ok))
    ensures Consistent(AfterRefresh(v, q, lookup))
    ensures Consistent(ApplyResolution(v, r))
    ensures Consistent(AfterInitialSession(v, s)) && Consistent(AfterAuthEvent(v, event, s, q, lookup))
  {
  }

  /** `useRequireAuth`: where to send the browser, if anywhere. */
  function RequireAuthRedirect(user: Option<User>, loading: bool): (target: Option<string>)
    ensures target.Some? <==> !loading && user.None?
    ensures target.Some? ==> target.value == LoginRoute
  {
    if !loading && user.None? then Some(LoginRoute) else None
  }

  /** The `AuthProvider`: its state, updated in place, and the store it writes. */
  class AuthProvider {
    var user: Option<User>
    var session: Option<Session>
    var profile: Option<Profile>
    var loading: bool
    const store: SessionStore

    constructor (store: SessionStore)
      ensures this.store == store
      ensures user == None && session == None && profile == None && loading
    {
      this.store := store;
      user := None;
      session := None;
      profile := None;
      loading := true;
    }

    function View(): AuthView
      reads this, store
    {
      AuthView(user, session, profile, loading, store.items)
    }

    /** The demo-profile mount effect. */
    method MountDemo()
      modifies this, store
      ensures View() == AfterDemoMount(old(View()))
    {
      InstallProfile(DemoProfile);
    }

    method InstallProfile(p: Profile)
      modifies this, store
      ensures View() == AfterInstallProfile(old(View()), p)
    {
      SetUserProfile(store, p);
      user := None;
      session := None;
      profile := Some(p);
      loading := false;
    }

    /** Stores a resolution's profile (and company id). */
    method Apply(r: Resolution)
      modifies this, store
      ensures View() == ApplyResolution(old(View()), r)
    {
      if r.Resolved? {
        SetUserProfile(store, r.profile);
        profile := Some(r.profile);
        if r.writeCompanyId {
          SetAuthData(store, AuthUpdate(None, None, Some(r.profile.companyId)));
        }
      }
    }

    /** The handler of the initial-session lookup; returns whether a profile
        resolution was started for the session. */
    method InitialSession(s: Option<Session>) returns (resolving: bool)
      modifies this, store
      ensures View() == AfterInitialSession(old(View()), s)
      ensures resolving <==> s.Some?
    {
      session := s;
      user := UserOf(s);
      resolving := false;
      if s.Some? {
        SetAuthData(store, SessionCredentials(s.value));
        resolving := true;
      } else {
        var stored := GetUserProfile(store.items);
        if stored.Unreadable? {
          return;
        }
        if stored.Cached? {
          profile := Some(stored.profile);
        }
      }
      loading := false;
    }

    /** The started resolution completing, with the query outcomes. */
    method ProfileResolved(s: Session, q: ProfileQuery, lookup: CompanyLookup)
      modifies this, store
      ensures View() == ApplyResolution(old(View()), ResolveProfile(s, q, lookup))
    {
      Apply(ResolveProfile(s, q, lookup));
    }

    /** The `onAuthStateChange` handler. */
    method OnAuthEvent(event: AuthEvent, s: Option<Session>, q: ProfileQuery, lookup: CompanyLookup)
      modifies this, store
      ensures View() == AfterAuthEvent(old(View()), event, s, q, lookup)
    {
      SetSession(s);
      if event.SignedIn? && s.Some? {
        SignedIn(s.value, q, lookup);
      } else if event.SignedOut? {
        SignedOutReset();
      }
      loading := false;
    }

    method SetSession(s: Option<Session>)
      modifies this
      ensures View() == old(View()).(session := s, user := UserOf(s))
    {
      session := s;
      user := UserOf(s);
    }

    method SignedIn(s: Session, q: ProfileQuery, lookup: CompanyLookup)
      modifies this, store
      ensures View() == SignedInStep(old(View()), s, q, lookup)
    {
      ghost var v0 := View();
      SetAuthData(store, SessionCredentials(s));
      assert View() == v0.(items := AfterSetAuthData(v0.items, SessionCredentials(s)));
      Apply(ResolveProfile(s, q, lookup));
    }

    method SignedOutReset()
      modifies this, store
      ensures View() == SignedOutStep(old(View()))
    {
      ClearAuthData(store);
      profile := None;
    }

    /** `signOut`, given whether the remote sign-out resolves. */
    method SignOut(remoteOk: bool)
      modifies this, store
      ensures View() == AfterSignOut(old(View()), remoteOk)
    {
      if remoteOk {
        ClearAuthData(store);
        user := None;
        session := None;
        profile := None;
      }
    }

    /** `refreshProfile`, given the query outcomes. */
    method RefreshProfile(q: ProfileQuery, lookup: CompanyLookup)
      modifies this, store
      ensures View() == AfterRefresh(old(View()), q, lookup)
    {
      if session.Some? && session.value.user.id != "" {
        Apply(ResolveProfile(session.value, q, lookup));
      }
    }
  }
}
