/** The session helpers (`authApi`) over session storage, the user-profile
    record and its stored form, and the construction of authenticated API
    requests (`apiRequest`). */
module Api {
  import opened Wrappers
  import opened Strings
  import opened Json
  import opened AuthConfig
  import opened Storage

  datatype AuthData = AuthData(userId: string, authToken: string, companyId: string)

  /** A `Partial<AuthData>`: absent fields are `None`. */
  datatype AuthUpdate = AuthUpdate(userId: Option<string>, authToken: Option<string>, companyId: Option<string>)

  /** The canonical user profile; the optional fields are `None` when undefined or null. */
  datatype Profile = Profile(
    id: string,
    email: string,
    name: Option<string>,
    companyId: string,
    role: Option<string>,
    companyName: Option<string>,
    phoneNumber: Option<string>,
    profileRoleName: Option<string>)

  /** What reading the cached profile gives: nothing stored, a profile, or
      text that does not parse (where `JSON.parse` throws). */
  datatype StoredProfile = NoProfile | Cached(profile: Profile) | Unreadable

  /** `sessionStorage.getItem(key) || ''`. */
  function ValueOr(items: map<string, string>, key: string): (r: string)
    ensures key !in items ==> r == ""
    ensures key in items ==> r == items[key]
  {
    if key in items then items[key] else ""
  }

  /** `authApi.getAuthData()`. */
  function GetAuthData(items: map<string, string>): (d: AuthData)
    ensures UserIdKey !in items ==> d.userId == ""
    ensures AuthTokenKey !in items ==> d.authToken == ""
    ensures CompanyIdKey !in items ==> d.companyId == ""
    ensures UserIdKey in items ==> d.userId == items[UserIdKey]
    ensures AuthTokenKey in items ==> d.authToken == items[AuthTokenKey]
    ensures CompanyIdKey in items ==> d.companyId == items[CompanyIdKey]
  {
    AuthData(ValueOr(items, UserIdKey), ValueOr(items, AuthTokenKey), ValueOr(items, CompanyIdKey))
  }

  /** `authApi.isAuthenticated()`. */
  predicate IsAuthenticated(items: map<string, string>) {
    var d := GetAuthData(items);
    d.userId != "" && d.authToken != ""
  }

  lemma IsAuthenticatedIff(items: map<string, string>)
    ensures IsAuthenticated(items) <==>
      UserIdKey in items && items[UserIdKey] != "" && AuthTokenKey in items && items[AuthTokenKey] != ""
  {
  }

  /** Writes `value` under `key` when it is a non-empty string. */
  function WriteIfTruthy(items: map<string, string>, key: string, value: Option<string>): map<string, string> {
    if Truthy(value) then items[key := value.value] else items
  }

  /** The storage after `authApi.setAuthData(u)`: only the supplied non-empty
      fields are written, every other key keeps its entry or its absence. */
  function AfterSetAuthData(items: map<string, string>, u: AuthUpdate): (r: map<string, string>)
    ensures Truthy(u.userId) ==> UserIdKey in r && r[UserIdKey] == u.userId.value
    ensures Truthy(u.authToken) ==> AuthTokenKey in r && r[AuthTokenKey] == u.authToken.value
    ensures Truthy(u.companyId) ==> CompanyIdKey in r && r[CompanyIdKey] == u.companyId.value
    ensures forall k :: k !in {UserIdKey, AuthTokenKey, CompanyIdKey} ==> (k in r <==> k in items)
    ensures forall k :: k in items && k !in {UserIdKey, AuthTokenKey, CompanyIdKey} ==> r[k] == items[k]
    ensures !Truthy(u.userId) ==> (UserIdKey in r <==> UserIdKey in items)
                                  && (UserIdKey in items ==> r[UserIdKey] == items[UserIdKey])
    ensures !Truthy(u.authToken) ==> (AuthTokenKey in r <==> AuthTokenKey in items)
                                     && (AuthTokenKey in items ==> r[AuthTokenKey] == items[AuthTokenKey])
    ensures !Truthy(u.companyId) ==> (CompanyIdKey in r <==> CompanyIdKey in items)
                                     && (CompanyIdKey in items ==> r[CompanyIdKey] == items[CompanyIdKey])
  {
    WriteIfTruthy(WriteIfTruthy(WriteIfTruthy(items, UserIdKey, u.userId), AuthTokenKey, u.authToken), CompanyIdKey, u.companyId)
  }

  /** Reading back after a write gives the written non-empty fields. */
  lemma SetThenGetAuthData(items: map<string, string>, u: AuthUpdate)
    ensures Truthy(u.userId) ==> GetAuthData(AfterSetAuthData(items, u)).userId == u.userId.value
    ensures Truthy(u.authToken) ==> GetAuthData(AfterSetAuthData(items, u)).authToken == u.authToken.value
    ensures Truthy(u.companyId) ==> GetAuthData(AfterSetAuthData(items, u)).companyId == u.companyId.value
    ensures Truthy(u.userId) && Truthy(u.authToken) ==> IsAuthenticated(AfterSetAuthData(items, u))
  {
  }

  /** The storage after `authApi.clearAuthData()`: the four session keys are gone. */
  function AfterClearAuthData(items: map<string, string>): (r: map<string, string>)
    ensures forall k :: k in r <==> k in items && k !in SessionKeys
    ensures forall k :: k in r ==> r[k] == items[k]
  {
    items - {UserIdKey, AuthTokenKey, CompanyIdKey, UserProfileKey}
  }

  /** After clearing, nothing reads as authenticated and no profile is cached. */
  lemma ClearedIsSignedOut(items: map<string, string>)
    ensures GetAuthData(AfterClearAuthData(items)) == AuthData("", "", "")
    ensures !IsAuthenticated(AfterClearAuthData(items))
    ensures GetUserProfile(AfterClearAuthData(items)) == NoProfile
  {
  }

  /** Clearing twice is clearing once. */
  lemma ClearIdempotent(items: map<string, string>)
    ensures AfterClearAuthData(AfterClearAuthData(items)) == AfterClearAuthData(items)
  {
  }

  // ---- The stored form of a profile (what `JSON.stringify` writes) ----

  const IdField := "{\"id\":"
  const EmailField := ",\"email\":"
  const NameField := ",\"name\":"
  const CompanyIdField := ",\"company_id\":"
  const RoleField := ",\"role\":"
  const CompanyNameField := ",\"company_name\":"
  const PhoneNumberField := ",\"phone_number\":"
  const ProfileRoleNameField := ",\"profile_role_name\":"

  function StringField(key: string, v: string, rest: string): string {
    key + StringLiteral(v) + rest
  }

  function NullableField(key: string, v: Option<string>, rest: string): string {
    key + NullableLiteral(v) + rest
  }

  /** `JSON.stringify(profile)`, with the fields in declaration order. */
  function SerializeProfile(p: Profile): string {
    StringField(IdField, p.id,
    StringField(EmailField, p.email,
    NullableField(NameField, p.name,
    StringField(CompanyIdField, p.companyId,
    NullableField(RoleField, p.role,
    NullableField(CompanyNameField, p.companyName,
    NullableField(PhoneNumberField, p.phoneNumber,
    NullableField(ProfileRoleNameField, p.profileRoleName, "}"))))))))
  }

  function ParseStringField(key: string, s: string): Option<(string, string)> {
    var r :- Expect(key, s);
    ParseString(r)
  }

  function ParseNullableField(key: string, s: string): Option<(Option<string>, string)> {
    var r :- Expect(key, s);
    ParseNullable(r)
  }

  /** `JSON.parse(stored)` for the stored form of a profile. */
  function ParseProfile(s: string): Option<Profile> {
    var f1 :- ParseStringField(IdField, s);
    var f2 :- ParseStringField(EmailField, f1.1);
    var f3 :- ParseNullableField(NameField, f2.1);
    var f4 :- ParseStringField(CompanyIdField, f3.1);
    var f5 :- ParseNullableField(RoleField, f4.1);
    var f6 :- ParseNullableField(CompanyNameField, f5.1);
    var f7 :- ParseNullableField(PhoneNumberField, f6.1);
    var f8 :- ParseNullableField(ProfileRoleNameField, f7.1);
    if f8.1 == "}" then Some(Profile(f1.0, f2.0, f3.0, f4.0, f5.0, f6.0, f7.0, f8.0)) else None
  }

  lemma StringFieldRoundTrip(key: string, v: string, rest: string)
    ensures ParseStringField(key, StringField(key, v, rest)) == Some((v, rest))
  {
    assert StringField(key, v, rest) == key + (StringLiteral(v) + rest);
    ExpectLiteral(key, StringLiteral(v) + rest);
    StringRoundTrip(v, rest);
  }

  lemma NullableFieldRoundTrip(key: string, v: Option<string>, rest: string)
    ensures ParseNullableField(key, NullableField(key, v, rest)) == Some((v, rest))
  {
    assert NullableField(key, v, rest) == key + (NullableLiteral(v) + rest);
    ExpectLiteral(key, NullableLiteral(v) + rest);
    NullableRoundTrip(v, rest);
  }

  /** Reading back the stored form of a profile gives the profile. */
  lemma ProfileRoundTrip(p: Profile)
    ensures ParseProfile(SerializeProfile(p)) == Some(p)
  {
    var r8 := NullableField(ProfileRoleNameField, p.profileRoleName, "}");
    var r7 := NullableField(PhoneNumberField, p.phoneNumber, r8);
    var r6 := NullableField(CompanyNameField, p.companyName, r7);
    var r5 := NullableField(RoleField, p.role, r6);
    var r4 := StringField(CompanyIdField, p.companyId, r5);
    var r3 := NullableField(NameField, p.name, r4);
    var r2 := StringField(EmailField, p.email, r3);
    var r1 := StringField(IdField, p.id, r2);
    assert SerializeProfile(p) == r1;
    StringFieldRoundTrip(IdField, p.id, r2);
    StringFieldRoundTrip(EmailField, p.email, r3);
    NullableFieldRoundTrip(NameField, p.name, r4);
    StringFieldRoundTrip(CompanyIdField, p.companyId, r5);
    NullableFieldRoundTrip(RoleField, p.role, r6);
    NullableFieldRoundTrip(CompanyNameField, p.companyName, r7);
    NullableFieldRoundTrip(PhoneNumberField, p.phoneNumber, r8);
    NullableFieldRoundTrip(ProfileRoleNameField, p.profileRoleName, "}");
  }

  /** The storage after `authApi.setUserProfile(p)`. */
  function AfterSetUserProfile(items: map<string, string>, p: Profile): (r: map<string, string>)
    ensures r.Keys == items.Keys + {UserProfileKey}
    ensures forall k :: k in items && k != UserProfileKey ==> r[k] == items[k]
  {
    items[UserProfileKey := SerializeProfile(p)]
  }

  /** `authApi.getUserProfile()`: absent or empty means no profile. */
  function GetUserProfile(items: map<string, string>): (r: StoredProfile)
    ensures (UserProfileKey !in items || items[UserProfileKey] == "") ==> r == NoProfile
  {
    if UserProfileKey !in items || items[UserProfileKey] == "" then NoProfile
    else match ParseProfile(items[UserProfileKey])
         case Some(p) => Cached(p)
         case None => Unreadable
  }

  /** `setUserProfile(p)` followed by `getUserProfile()` gives `p`. */
  lemma UserProfileRoundTrip(items: map<string, string>, p: Profile)
    ensures GetUserProfile(AfterSetUserProfile(items, p)) == Cached(p)
  {
    ProfileRoundTrip(p);
  }

  // ---- Session-store operations, step by step ----

  /** `authApi.setAuthData(u)`. */
  method SetAuthData(store: SessionStore, u: AuthUpdate)
    modifies store
    ensures store.items == AfterSetAuthData(old(store.items), u)
  {
    if Truthy(u.userId) { store.SetItem(UserIdKey, u.userId.value); }
    if Truthy(u.authToken) { store.SetItem(AuthTokenKey, u.authToken.value); }
    if Truthy(u.companyId) { store.SetItem(CompanyIdKey, u.companyId.value); }
  }

  /** `authApi.clearAuthData()`: removes every session key in turn. */
  method ClearAuthData(store: SessionStore)
    modifies store
    ensures store.items == AfterClearAuthData(old(store.items))
  {
    var keys := SessionKeys;
    for i := 0 to |keys|
      invariant forall k :: k in store.items <==> k in old(store.items) && k !in keys[..i]
      invariant forall k :: k in store.items ==> store.items[k] == old(store.items)[k]
    {
      store.RemoveItem(keys[i]);
      assert keys[..i + 1] == keys[..i] + [keys[i]];
    }
    assert keys[..|keys|] == SessionKeys;
  }

  /** `authApi.setUserProfile(p)`. */
  method SetUserProfile(store: SessionStore, p: Profile)
    modifies store
    ensures store.items == AfterSetUserProfile(old(store.items), p)
  {
    store.SetItem(UserProfileKey, SerializeProfile(p));
  }

  // ---- Authenticated requests ----

  /** A value passed as request data. */
  datatype Data = Undefined | Null | Bool(b: bool) | Number(n: int) | Text(s: string) | Structured(json: string)

  predicate TruthyData(d: Data) {
    match d
    case Undefined => false
    case Null => false
    case Bool(b) => b
    case Number(n) => n != 0
    case Text(s) => s != ""
    case Structured(_) => true
  }

  /** `JSON.stringify(d)` for a defined value. */
  function Stringify(d: Data): string
    requires !d.Undefined?
  {
    match d
    case Null => "null"
    case Bool(b) => if b then "true" else "false"
    case Number(n) => IntLiteral(n)
    case Text(s) => StringLiteral(s)
    case Structured(json) => json
  }

  /** `data ? JSON.stringify(data) : undefined`. */
  function BodyOf(d: Data): (body: Option<string>)
    ensures body.Some? <==> TruthyData(d)
  {
    if TruthyData(d) then Some(Stringify(d)) else None
  }

  datatype RequestInit = RequestInit(verb: Option<string>, body: Option<string>, headers: map<string, string>)

  datatype Request = Request(url: string, init: RequestInit)

  function GetInit(): RequestInit { RequestInit(Some("GET"), None, map[]) }
  function PostInit(data: Data): RequestInit { RequestInit(Some("POST"), BodyOf(data), map[]) }
  function PutInit(data: Data): RequestInit { RequestInit(Some("PUT"), BodyOf(data), map[]) }
  function DeleteInit(): RequestInit { RequestInit(Some("DELETE"), None, map[]) }

  /** A string sent as data reads back from the body as the same string. */
  lemma TextBodyRoundTrip(s: string)
    requires s != ""
    ensures PostInit(Text(s)).body.Some? && ParseString(PostInit(Text(s)).body.value) == Some((s, ""))
    ensures PutInit(Text(s)).body == PostInit(Text(s)).body
  {
    assert StringLiteral(s) + "" == StringLiteral(s);
    StringRoundTrip(s, "");
  }

  /** Falsy data sends no body. */
  lemma FalsyDataNoBody(d: Data)
    requires !TruthyData(d)
    ensures PostInit(d).body == None && PutInit(d).body == None
  {
  }

  /** The headers of an authenticated call: a JSON content type unless the
      caller sets one, the caller's headers, and a bearer token that
      overrides any caller `Authorization` whenever a token is stored. */
  function Headers(caller: map<string, string>, token: string): (h: map<string, string>)
    ensures h.Keys == caller.Keys + {"Content-Type"} + (if token != "" then {"Authorization"} else {})
    ensures "Content-Type" in caller ==> h["Content-Type"] == caller["Content-Type"]
    ensures "Content-Type" !in caller ==> h["Content-Type"] == "application/json"
    ensures token != "" ==> h["Authorization"] == "Bearer " + token
    ensures forall k :: k in caller && (k != "Authorization" || token == "") ==> h[k] == caller[k]
  {
    var merged := map["Content-Type" := "application/json"] + caller;
    if token != "" then merged["Authorization" := "Bearer " + token] else merged
  }

  /** `baseUrl ? baseUrl + endpoint : endpoint`. */
  function RequestUrl(baseUrl: Option<string>, endpoint: string): (url: string)
    ensures Truthy(baseUrl) ==> url == baseUrl.value + endpoint
    ensures !Truthy(baseUrl) ==> url == endpoint
  {
    if Truthy(baseUrl) then baseUrl.value + endpoint else endpoint
  }

  /** The request `apiRequest.call` sends: the options with the headers replaced. */
  function BuildRequest(items: map<string, string>, endpoint: string, options: RequestInit, baseUrl: Option<string>): (req: Request)
    ensures req.init.verb == options.verb && req.init.body == options.body
    ensures req.init.headers == Headers(options.headers, GetAuthData(items).authToken)
    ensures req.url == RequestUrl(baseUrl, endpoint)
  {
    var headers := Headers(options.headers, GetAuthData(items).authToken);
    Request(RequestUrl(baseUrl, endpoint), options.(headers := headers))
  }

  /** A signed-in session sends its token as a bearer credential. */
  lemma AuthenticatedRequestCarriesToken(items: map<string, string>, endpoint: string, options: RequestInit, baseUrl: Option<string>)
    requires IsAuthenticated(items)
    ensures BuildRequest(items, endpoint, options, baseUrl).init.headers["Authorization"] == "Bearer " + items[AuthTokenKey]
  {
  }

  datatype Response = Response(status: int, statusText: string, json: string)

  datatype CallResult = Succeeded(json: string) | SessionExpired | CallFailed(message: string)

  /** `apiRequest.call`: sends the request (the response is given), clears the
      session and sends the browser to the login route on a 401. */
  method Call(store: SessionStore, endpoint: string, options: RequestInit, baseUrl: Option<string>, response: Response)
    returns (req: Request, result: CallResult, navigate: Option<string>)
    modifies store
    ensures req == BuildRequest(old(store.items), endpoint, options, baseUrl)
    ensures 200 <= response.status <= 299 ==>
      result == Succeeded(response.json) && navigate == None && store.items == old(store.items)
    ensures response.status == 401 ==>
      result == SessionExpired && navigate == Some(LoginRoute) && store.items == AfterClearAuthData(old(store.items))
    ensures !(200 <= response.status <= 299) && response.status != 401 ==>
      result == CallFailed("API call failed: " + response.statusText) && navigate == None && store.items == old(store.items)
  {
    var token := GetAuthData(store.items).authToken;
    var headers := Headers(options.headers, token);
    var url := RequestUrl(baseUrl, endpoint);
    req := Request(url, options.(headers := headers));
    navigate := None;
    if !(200 <= response.status <= 299) {
      if response.status == 401 {
        ClearAuthData(store);
        navigate := Some(LoginRoute);
        result := SessionExpired;
        return;
      }
      result := CallFailed("API call failed: " + response.statusText);
      return;
    }
    result := Succeeded(response.json);
  }
}
